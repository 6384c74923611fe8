/** processor.py: the second separation processor, which removes vocals
    with an MDX model it wraps itself and any other instrument with Demucs.
    Modelled here: the reshaping done by `_fix_tensor`, the classification
    of the MDX separator's output files, the wrapper's life cycle, the
    routing and naming of `run`, its save loop, its signals and `cancel`.
    torchaudio, the MDX separator, Demucs and the file system are inputs. */
module AltProcessor {
  import opened Common
  import opened Text
  import opened Paths
  import opened Signals
  import DemucsManager

  const VocalTag := "vocal"
  const VoiceTag := "voice"
  const InstrumentalTagName := "instrumental"
  const MusicTag := "music"
  const NoVocalsTag := "no_vocals"
  const WavExt := ".wav"
  const DownloadsDir := "Downloads"
  const NoInfix := "_no_"
  const VocalsName := "vocals"
  const ErrorPrefix := "Error: "
  const CompletePrefix := "Processing complete \U{2192} "
  const MdxRouteStatus := "Removing vocals with MDX..."
  const DemucsRoutePrefix := "Processing "
  const DemucsRouteSuffix := " with Demucs..."
  const RemovalFailed := "Vocal removal failed"

  // ----- Tensors and `_fix_tensor` -----

  type Shape = seq<nat>

  /** A tensor: its shape and its samples in row-major order. */
  datatype Tensor = Tensor(shape: Shape, samples: seq<real>)

  /** The number of elements of a tensor of shape `s`. */
  function Product(s: Shape): nat
  {
    if s == [] then 1 else s[0] * Product(s[1..])
  }

  /** The dimensions of `s` other than those of size 1, in order. */
  function NonUnit(s: Shape): Shape
  {
    if s == [] then [] else (if s[0] == 1 then [] else [s[0]]) + NonUnit(s[1..])
  }

  /** `squeeze(0)`: drops the first dimension when it has size 1. */
  function Squeeze0(s: Shape): Shape
  {
    if |s| > 0 && s[0] == 1 then s[1..] else s
  }

  /** The shape `_fix_tensor` gives a tensor of shape `s`: a vector gains a
      leading dimension, a 3-dimensional tensor is squeezed unless `batch`
      is set, and with `batch` a matrix gains a leading dimension. */
  function FixShape(s: Shape, batch: bool): (r: Shape)
    ensures NonUnit(r) == NonUnit(s) && Product(r) == Product(s)
    ensures batch && 1 <= |s| <= 3 ==> |r| == 3
    ensures !batch && (|s| == 1 || (|s| == 3 && s[0] == 1)) ==> |r| == 2
    ensures !batch && (|s| == 2 || (|s| == 3 && s[0] != 1)) ==> r == s
    ensures batch && |s| == 2 ==> r == [1] + s
    ensures batch && |s| == 3 ==> r == s
    ensures !batch && |s| == 3 && s[0] == 1 ==> r == s[1..]
    ensures !(1 <= |s| <= 3) ==> r == s
  {
    var s1 := if |s| == 1 then [1] + s else if |s| == 3 && !batch then Squeeze0(s) else s;
    assert ([1] + s)[1..] == s;
    assert NonUnit(s1) == NonUnit(s) && Product(s1) == Product(s);
    var r := if batch && |s1| == 2 then [1] + s1 else s1;
    assert ([1] + s1)[1..] == s1;
    r
  }

  /** `_fix_tensor(t, batch)`; moving to a device and the conversion to
      floats leave shape and samples as they are. */
  function FixTensor(t: Option<Tensor>, batch: bool): (r: Option<Tensor>)
    ensures r.Some? <==> t.Some?
    ensures t.Some? ==> r.value.samples == t.value.samples && r.value.shape == FixShape(t.value.shape, batch)
  {
    match t
    case None => None
    case Some(x) => Some(Tensor(FixShape(x.shape, batch), x.samples))
  }

  /** Fixing a tensor twice is fixing it once. */
  lemma FixShapeIdempotent(s: Shape, batch: bool)
    ensures FixShape(FixShape(s, batch), batch) == FixShape(s, batch)
  {
  }

  /** A vector becomes one row, or a batch of one row. */
  lemma FixShapeVector(n: nat, batch: bool)
    ensures FixShape([n], batch) == if batch then [1, 1, n] else [1, n]
  {
  }

  // ----- Classifying the separator's output -----

  /** Which stem an output file holds, as its name suggests. */
  datatype Slot = VocalSlot | InstrumentalSlot | NoSlot

  /** The slot of a dictionary entry, judged by its key. */
  function KeySlot(key: string): Slot
  {
    var k := Lower(key);
    if IsInfix(VocalTag, k) then VocalSlot
    else if IsInfix(InstrumentalTagName, k) || IsInfix(MusicTag, k) then InstrumentalSlot
    else NoSlot
  }

  /** The slot of a listed file, judged by its base name; "vocal" and
      "voice" are tested before the instrumental tags. */
  function FileSlot(path: string): Slot
  {
    var fn := Lower(Basename(path));
    if IsInfix(VocalTag, fn) || IsInfix(VoiceTag, fn) then VocalSlot
    else if IsInfix(InstrumentalTagName, fn) || IsInfix(NoVocalsTag, fn) || IsInfix(MusicTag, fn) then InstrumentalSlot
    else NoSlot
  }

  /** A listed file named like an instrumental without vocals is taken
      for the vocals, because the test for "vocal" comes first. */
  lemma NoVocalsIsVocal(path: string)
    requires IsInfix(NoVocalsTag, Lower(Basename(path)))
    ensures FileSlot(path) == VocalSlot
  {
    assert OccursAt(VocalTag, NoVocalsTag, 3);
    InfixTransitive(VocalTag, NoVocalsTag, Lower(Basename(path)));
  }

  /** What `separate` returns: a dictionary from stem names to paths (in
      iteration order), a list of paths, or something else. */
  datatype SeparatorOutput =
    | DictOutput(entries: seq<(string, string)>)
    | ListOutput(paths: seq<string>)
    | OtherOutput

  /** The output files paired with their slots, in iteration order. */
  function Tagged(out: SeparatorOutput): (r: seq<(Slot, string)>)
  {
    match out
    case DictOutput(entries) => seq(|entries|, i requires 0 <= i < |entries| => (KeySlot(entries[i].0), entries[i].1))
    case ListOutput(paths) => seq(|paths|, i requires 0 <= i < |paths| => (FileSlot(paths[i]), paths[i]))
    case OtherOutput => []
  }

  /** Entry `i` of `tagged` names an existing file for `slot`. */
  predicate HitAt(tagged: seq<(Slot, string)>, files: map<string, Tensor>, slot: Slot, i: nat)
    requires i < |tagged|
  {
    tagged[i].0 == slot && tagged[i].1 in files
  }

  /** The file the first scan keeps for `slot` from the first `k` output
      files: each existing file for the slot overwrites the previous one,
      so the last one counts. */
  function LastHit(tagged: seq<(Slot, string)>, files: map<string, Tensor>, slot: Slot, k: nat): (r: Option<string>)
    requires k <= |tagged|
    ensures r.None? <==> forall i :: 0 <= i < k ==> !HitAt(tagged, files, slot, i)
    ensures r.Some? ==> r.value in files && exists i :: (0 <= i < k && HitAt(tagged, files, slot, i) && tagged[i].1 == r.value &&
      forall j :: i < j < k ==> !HitAt(tagged, files, slot, j))
    decreases k
  {
    if k == 0 then None
    else if HitAt(tagged, files, slot, k - 1) then Some(tagged[k - 1].1)
    else LastHit(tagged, files, slot, k - 1)
  }

  /** The first scan: a loop over the output files that reassigns the
      vocal and the instrumental file. */
  method PrimaryScan(tagged: seq<(Slot, string)>, files: map<string, Tensor>)
    returns (vocals: Option<string>, instrumental: Option<string>)
    ensures vocals == LastHit(tagged, files, VocalSlot, |tagged|)
    ensures instrumental == LastHit(tagged, files, InstrumentalSlot, |tagged|)
  {
    vocals, instrumental := None, None;
    var i := 0;
    while i < |tagged|
      invariant 0 <= i <= |tagged|
      invariant vocals == LastHit(tagged, files, VocalSlot, i)
      invariant instrumental == LastHit(tagged, files, InstrumentalSlot, i)
    {
      var (slot, fp) := tagged[i];
      if fp in files {
        if slot == VocalSlot {
          vocals := Some(fp);
        } else if slot == InstrumentalSlot {
          instrumental := Some(fp);
        }
      }
      i := i + 1;
    }
  }

  /** The stems found so far, as the paths they were loaded from. */
  datatype Found = Found(vocals: Option<string>, instrumental: Option<string>)

  predicate EndsWithWav(fn: string)
  {
    |fn| >= 4 && fn[|fn| - 4..] == WavExt
  }

  /** `fn` would fill the vocal slot of the fallback scan while it is empty. */
  predicate VocalWav(fn: string)
  {
    EndsWithWav(fn) && IsInfix(VocalTag, Lower(fn))
  }

  predicate InstrumentalTag(low: string)
  {
    IsInfix(InstrumentalTagName, low) || IsInfix(MusicTag, low) || IsInfix(NoVocalsTag, low)
  }

  /** One file of the fallback scan: it fills an empty slot only. */
  function FallbackStep(f: Found, outdir: string, fn: string): Found
  {
    if !EndsWithWav(fn) then f
    else if IsInfix(VocalTag, Lower(fn)) && f.vocals.None? then Found(Some(Join(outdir, fn)), f.instrumental)
    else if InstrumentalTag(Lower(fn)) && f.instrumental.None? then Found(f.vocals, Some(Join(outdir, fn)))
    else f
  }

  /** The fallback scan over the listing of the output directory. */
  function Fallback(f: Found, outdir: string, listing: seq<string>): Found
    decreases |listing|
  {
    if listing == [] then f
    else FallbackStep(Fallback(f, outdir, listing[..|listing| - 1]), outdir, listing[|listing| - 1])
  }

  /** The fallback scan never replaces a stem already found. */
  lemma {:induction false} FallbackKeeps(f: Found, outdir: string, listing: seq<string>)
    ensures f.vocals.Some? ==> Fallback(f, outdir, listing).vocals == f.vocals
    ensures f.instrumental.Some? ==> Fallback(f, outdir, listing).instrumental == f.instrumental
    decreases |listing|
  {
    if listing != [] {
      FallbackKeeps(f, outdir, listing[..|listing| - 1]);
    }
  }

  /** With the vocal slot empty, the fallback scan fills it from the first
      listed WAV file whose name contains "vocal", and leaves it empty
      when there is none. */
  lemma {:induction false} FallbackFirstVocal(f: Found, outdir: string, listing: seq<string>)
    requires f.vocals.None?
    ensures Fallback(f, outdir, listing).vocals.None? <==> forall i :: 0 <= i < |listing| ==> !VocalWav(listing[i])
    ensures Fallback(f, outdir, listing).vocals.Some? ==>
      exists i :: 0 <= i < |listing| && VocalWav(listing[i]) && Fallback(f, outdir, listing).vocals == Some(Join(outdir, listing[i])) &&
        forall j :: 0 <= j < i ==> !VocalWav(listing[j])
    decreases |listing|
  {
    if listing != [] {
      var n := |listing| - 1;
      FallbackFirstVocal(f, outdir, listing[..n]);
      assert forall i :: 0 <= i < n ==> listing[..n][i] == listing[i];
    }
  }

  /** Listed file `i` would fill the instrumental slot of the fallback
      scan, started from `f`, while that slot is empty: a WAV file with an
      instrumental tag that is not taken for the vocals instead, as the
      first vocal WAV file is while the vocal slot is still empty. */
  predicate TakesInstrumental(f: Found, listing: seq<string>, i: nat)
    requires i < |listing|
  {
    && EndsWithWav(listing[i]) && InstrumentalTag(Lower(listing[i]))
    && !(f.vocals.None? && VocalWav(listing[i]) && forall j :: 0 <= j < i ==> !VocalWav(listing[j]))
  }

  /** With the instrumental slot empty, the fallback scan fills it from the
      first listed file that `TakesInstrumental`, and leaves it empty when
      there is none. When the vocals are already found this is the first
      WAV file with an instrumental tag. */
  lemma {:induction false} FallbackFirstInstrumental(f: Found, outdir: string, listing: seq<string>)
    requires f.instrumental.None?
    ensures Fallback(f, outdir, listing).instrumental.None? <==>
            forall i :: 0 <= i < |listing| ==> !TakesInstrumental(f, listing, i)
    ensures Fallback(f, outdir, listing).instrumental.Some? ==>
      exists i :: 0 <= i < |listing| && TakesInstrumental(f, listing, i) &&
        Fallback(f, outdir, listing).instrumental == Some(Join(outdir, listing[i])) &&
        forall j :: 0 <= j < i ==> !TakesInstrumental(f, listing, j)
    decreases |listing|
  {
    if listing != [] {
      var n := |listing| - 1;
      var front, last := listing[..n], listing[n];
      assert forall i :: 0 <= i < n ==> front[i] == listing[i];
      assert forall i :: 0 <= i < n ==> (TakesInstrumental(f, front, i) <==> TakesInstrumental(f, listing, i));
      FallbackFirstInstrumental(f, outdir, front);
      var g := Fallback(f, outdir, front);
      if f.vocals.None? {
        FallbackFirstVocal(f, outdir, front);
      } else {
        FallbackKeeps(f, outdir, front);
      }
      // The last file takes the vocals instead exactly when the vocal slot is still empty.
      assert (IsInfix(VocalTag, Lower(last)) && g.vocals.None?) <==>
             (f.vocals.None? && IsInfix(VocalTag, Lower(last)) && forall j :: 0 <= j < n ==> !VocalWav(listing[j]));
      assert g.instrumental.None? ==>
        (Fallback(f, outdir, listing).instrumental.Some? <==> TakesInstrumental(f, listing, n));
    }
  }

  /** The fallback scan as a loop over the listing. */
  method FallbackScan(f: Found, outdir: string, listing: seq<string>) returns (g: Found)
    ensures g == Fallback(f, outdir, listing)
  {
    g := f;
    var i := 0;
    while i < |listing|
      invariant 0 <= i <= |listing|
      invariant g == Fallback(f, outdir, listing[..i])
    {
      assert listing[..i + 1][..i] == listing[..i];
      var fn := listing[i];
      if EndsWithWav(fn) {
        var low := Lower(fn);
        if IsInfix(VocalTag, low) && g.vocals.None? {
          g := Found(Some(Join(outdir, fn)), g.instrumental);
        } else if InstrumentalTag(low) && g.instrumental.None? {
          g := Found(g.vocals, Some(Join(outdir, fn)));
        }
      }
      i := i + 1;
    }
    assert listing[..i] == listing;
  }

  /** Every file in the listing of `outdir` exists. */
  predicate Listed(files: map<string, Tensor>, outdir: string, listing: seq<string>)
  {
    forall i :: 0 <= i < |listing| ==> Join(outdir, listing[i]) in files
  }

  const MissingStems := "Output missing vocal/instrumental stems"

  /** The stems after the first scan found `first`: the fallback scan runs
      only when one of them is missing. */
  function AfterFallback(first: Found, outdir: string, listing: seq<string>): Found
  {
    if first.vocals.None? || first.instrumental.None? then Fallback(first, outdir, listing) else first
  }

  /** The files the wrapper loads the vocals and the instrumental from:
      the first scan, then the fallback scan if a stem is missing, and an
      error if one is still missing. */
  function Classify(out: SeparatorOutput, files: map<string, Tensor>, outdir: string, listing: seq<string>)
    : (r: Result<(string, string)>)
    requires Listed(files, outdir, listing)
    ensures r.Ok? ==> r.value.0 in files && r.value.1 in files
    ensures r.Err? ==> r.error == MissingStems
  {
    var tagged := Tagged(out);
    var first := Found(LastHit(tagged, files, VocalSlot, |tagged|), LastHit(tagged, files, InstrumentalSlot, |tagged|));
    var f := AfterFallback(first, outdir, listing);
    FallbackFound(first, files, outdir, listing);
    if f.vocals.None? || f.instrumental.None? then Err(MissingStems) else Ok((f.vocals.value, f.instrumental.value))
  }

  /** What the two scans end with, given what the first one found. A stem
      found first is kept; a missing vocal stem becomes the first vocal WAV
      file listed, a missing instrumental stem the first listed file that
      `TakesInstrumental`; both slots end up filled exactly when each was
      found first or has such a file. */
  lemma {:induction false} AfterFallbackChoosesFirst(first: Found, outdir: string, listing: seq<string>)
    ensures var f := AfterFallback(first, outdir, listing);
      && (f.vocals.Some? && f.instrumental.Some? <==>
            && (first.vocals.Some? || exists i :: 0 <= i < |listing| && VocalWav(listing[i]))
            && (first.instrumental.Some? || exists i :: 0 <= i < |listing| && TakesInstrumental(first, listing, i)))
      && (first.vocals.Some? ==> f.vocals == first.vocals)
      && (first.instrumental.Some? ==> f.instrumental == first.instrumental)
      && (first.vocals.None? && f.vocals.Some? ==>
            exists i :: 0 <= i < |listing| && VocalWav(listing[i]) && f.vocals.value == Join(outdir, listing[i]) &&
              forall j :: 0 <= j < i ==> !VocalWav(listing[j]))
      && (first.instrumental.None? && f.instrumental.Some? ==>
            exists i :: 0 <= i < |listing| && TakesInstrumental(first, listing, i) &&
              f.instrumental.value == Join(outdir, listing[i]) &&
              forall j :: 0 <= j < i ==> !TakesInstrumental(first, listing, j))
  {
    if first.vocals.None? || first.instrumental.None? {
      FallbackKeeps(first, outdir, listing);
      FallbackParts(first, outdir, listing);
    }
  }

  /** What `Classify` chooses: `AfterFallbackChoosesFirst` for the stems
      the first scan of the separator's output finds. The result is an
      error exactly when a stem is missing from both scans. */
  lemma ClassifyChoosesFirst(out: SeparatorOutput, files: map<string, Tensor>, outdir: string, listing: seq<string>)
    requires Listed(files, outdir, listing)
    ensures var r := Classify(out, files, outdir, listing);
      var tagged := Tagged(out);
      var first := Found(LastHit(tagged, files, VocalSlot, |tagged|), LastHit(tagged, files, InstrumentalSlot, |tagged|));
      var f := AfterFallback(first, outdir, listing);
      && (r.Ok? <==> f.vocals.Some? && f.instrumental.Some?)
      && (r.Ok? ==> r.value == (f.vocals.value, f.instrumental.value))
  {
  }

  /** `FallbackFirstVocal` and `FallbackFirstInstrumental` for whichever
      slots of `f` are empty. */
  lemma FallbackParts(f: Found, outdir: string, listing: seq<string>)
    ensures f.vocals.None? ==>
      (Fallback(f, outdir, listing).vocals.None? <==> forall i :: 0 <= i < |listing| ==> !VocalWav(listing[i]))
    ensures f.vocals.None? && Fallback(f, outdir, listing).vocals.Some? ==>
      exists i :: 0 <= i < |listing| && VocalWav(listing[i]) && Fallback(f, outdir, listing).vocals == Some(Join(outdir, listing[i])) &&
        forall j :: 0 <= j < i ==> !VocalWav(listing[j])
    ensures f.instrumental.None? ==>
      (Fallback(f, outdir, listing).instrumental.None? <==> forall i :: 0 <= i < |listing| ==> !TakesInstrumental(f, listing, i))
    ensures f.instrumental.None? && Fallback(f, outdir, listing).instrumental.Some? ==>
      exists i :: 0 <= i < |listing| && TakesInstrumental(f, listing, i) &&
        Fallback(f, outdir, listing).instrumental == Some(Join(outdir, listing[i])) &&
        forall j :: 0 <= j < i ==> !TakesInstrumental(f, listing, j)
  {
    if f.vocals.None? {
      FallbackFirstVocal(f, outdir, listing);
    }
    if f.instrumental.None? {
      FallbackFirstInstrumental(f, outdir, listing);
    }
  }

  /** Stems found by the fallback scan exist. */
  lemma {:induction false} FallbackFound(f: Found, files: map<string, Tensor>, outdir: string, listing: seq<string>)
    requires Listed(files, outdir, listing)
    requires f.vocals.Some? ==> f.vocals.value in files
    requires f.instrumental.Some? ==> f.instrumental.value in files
    ensures Fallback(f, outdir, listing).vocals.Some? ==> Fallback(f, outdir, listing).vocals.value in files
    ensures Fallback(f, outdir, listing).instrumental.Some? ==> Fallback(f, outdir, listing).instrumental.value in files
    decreases |listing|
  {
    if listing != [] {
      var n := |listing| - 1;
      assert Listed(files, outdir, listing[..n]) by {
        forall i | 0 <= i < n ensures Join(outdir, listing[..n][i]) in files {
          assert listing[..n][i] == listing[i];
        }
      }
      FallbackFound(f, files, outdir, listing[..n]);
      assert Join(outdir, listing[n]) in files;
    }
  }

  /** The two scans of the output, as the wrapper runs them. */
  method ScanOutput(out: SeparatorOutput, files: map<string, Tensor>, outdir: string, listing: seq<string>)
    returns (r: Result<(string, string)>)
    requires Listed(files, outdir, listing)
    ensures r == Classify(out, files, outdir, listing)
  {
    var vocals, instrumental := PrimaryScan(Tagged(out), files);
    if vocals.None? || instrumental.None? {
      var f := FallbackScan(Found(vocals, instrumental), outdir, listing);
      vocals, instrumental := f.vocals, f.instrumental;
    }
    if vocals.None? || instrumental.None? {
      r := Err(MissingStems);
    } else {
      r := Ok((vocals.value, instrumental.value));
    }
  }

  // ----- The MDX wrapper -----

  /** How creating the separator and loading its model ends. */
  datatype Setup = SetupOk | ConstructFails(message: string) | ModelLoadFails(message: string)

  const LoadingEngine := "Loading vocal removal engine..."
  const SeparatingVocals := "Separating vocals..."
  const RemovalError := "Vocal removal error: "

  /** What one call of the wrapper gives: the files of the two stems, or
      the message of the exception it raises. Without a separator it first
      sets one up; it then saves the input to a temporary file, separates
      it and classifies the output. */
  function MdxResult(hasSeparator: bool, setup: Setup, tempSave: Option<string>, separated: Result<SeparatorOutput>,
                     files: map<string, Tensor>, outdir: string, listing: seq<string>): (r: Result<(string, string)>)
    requires Listed(files, outdir, listing)
    ensures r.Ok? ==> r.value.0 in files && r.value.1 in files
  {
    if !hasSeparator && !setup.SetupOk? then Err(setup.message)
    else StemsResult(tempSave, separated, files, outdir, listing)
  }

  /** What the call gives once the separator exists: the temporary save,
      the separation and the two scans, each able to raise. */
  function StemsResult(tempSave: Option<string>, separated: Result<SeparatorOutput>,
                       files: map<string, Tensor>, outdir: string, listing: seq<string>): (r: Result<(string, string)>)
    requires Listed(files, outdir, listing)
    ensures r.Ok? ==> r.value.0 in files && r.value.1 in files
  {
    if tempSave.Some? then Err(tempSave.value)
    else if separated.Err? then Err(separated.error)
    else Classify(separated.value, files, outdir, listing)
  }

  /** The two stems the call returns, vocals first, each through
      `_fix_tensor` without a batch dimension. */
  function FixedStems(files: map<string, Tensor>, found: (string, string)): (r: seq<Tensor>)
    requires found.0 in files && found.1 in files
    ensures |r| == 2
    ensures r[0].samples == files[found.0].samples && r[0].shape == FixShape(files[found.0].shape, false)
    ensures r[1].samples == files[found.1].samples && r[1].shape == FixShape(files[found.1].shape, false)
  {
    [FixTensor(Some(files[found.0]), false).value, FixTensor(Some(files[found.1]), false).value]
  }

  /** The status messages of one call. */
  function MdxStatuses(hasSeparator: bool, setup: Setup, r: Result<(string, string)>): seq<string>
  {
    (if hasSeparator then [] else [LoadingEngine])
      + (if !hasSeparator && !setup.SetupOk? then [] else [SeparatingVocals])
      + (if r.Err? then [RemovalError + r.error] else [])
  }

  /** The statuses of one call in the order they are sent: the engine
      message on first use, then either the setup's error alone or the
      separation message followed by the error, if any. */
  lemma StatusesInOrder(hasSeparator: bool, setup: Setup, r: Result<(string, string)>)
    ensures !hasSeparator && !setup.SetupOk? && r.Err? ==>
      MdxStatuses(hasSeparator, setup, r) == [LoadingEngine, RemovalError + r.error]
    ensures hasSeparator || setup.SetupOk? ==>
      MdxStatuses(hasSeparator, setup, r)
        == (if hasSeparator then [] else [LoadingEngine]) + [SeparatingVocals] + (if r.Err? then [RemovalError + r.error] else [])
  {
    if !hasSeparator && !setup.SetupOk? && r.Err? {
      assert [LoadingEngine] + [] + [RemovalError + r.error] == [LoadingEngine, RemovalError + r.error];
    }
    if hasSeparator {
      assert [] + [SeparatingVocals] == [SeparatingVocals];
    }
  }

  /** The part of `__call__` once the separator exists: the temporary
      save, the separation and the two scans. `found` is what the scans
      give and `r` its two stems passed through `_fix_tensor`; the
      temporary directory is left behind exactly when the temporary save
      raises, before the `try` whose `finally` removes it. */
  method SeparateStems(tempSave: Option<string>, separated: Result<SeparatorOutput>,
                       files: map<string, Tensor>, outdir: string, listing: seq<string>)
    returns (r: Result<seq<Tensor>>, found: Result<(string, string)>, tempLeft: bool)
    requires Listed(files, outdir, listing)
    ensures found == StemsResult(tempSave, separated, files, outdir, listing)
    ensures r.Err? <==> found.Err?
    ensures found.Err? ==> r.error == found.error
    ensures found.Ok? ==> r.value == FixedStems(files, found.value)
    ensures tempLeft <==> tempSave.Some?
  {
    if tempSave.Some? {
      return Err(tempSave.value), Err(tempSave.value), true;
    }
    found := if separated.Err? then Err(separated.error) else Err(MissingStems);
    if separated.Ok? {
      found := ScanOutput(separated.value, files, outdir, listing);
    }
    tempLeft := false;
    if found.Err? {
      return Err(found.error), found, false;
    }
    r := Ok(FixedStems(files, found.value));
  }

  /** `MDXModelWrapper`; its status callback is always present, as `run`
      creates it. */
  class MdxWrapper {
    const modelPath: string
    /** `self.separator is not None`. */
    var hasSeparator: bool

    constructor(modelPath: string)
      ensures this.modelPath == modelPath && !hasSeparator
    {
      this.modelPath := modelPath;
      hasSeparator := false;
    }

    /** `__call__`: returns the two stems as `_fix_tensor` leaves them, the
        statuses sent, and whether the temporary directory is left behind
        (it is removed after every separation attempt, but not when saving
        the temporary input fails). */
    method Call(setup: Setup, tempSave: Option<string>, separated: Result<SeparatorOutput>,
                files: map<string, Tensor>, outdir: string, listing: seq<string>)
      returns (r: Result<seq<Tensor>>, statuses: seq<string>, tempLeft: bool)
      requires Listed(files, outdir, listing)
      modifies this
      ensures hasSeparator == (old(hasSeparator) || !setup.ConstructFails?)
      ensures var m := MdxResult(old(hasSeparator), setup, tempSave, separated, files, outdir, listing);
        && statuses == MdxStatuses(old(hasSeparator), setup, m)
        && (r.Err? <==> m.Err?)
        && (m.Err? ==> r.error == m.error)
        && (m.Ok? ==> r.value == FixedStems(files, m.value))
      ensures tempLeft <==> (old(hasSeparator) || setup.SetupOk?) && tempSave.Some?
      ensures r.Ok? ==> |r.value| == 2
    {
      statuses := [];
      tempLeft := false;
      if !hasSeparator {
        statuses := [LoadingEngine];
        if setup.ConstructFails? {
          StatusesInOrder(false, setup, Err(setup.message));
          return Err(setup.message), [LoadingEngine, RemovalError + setup.message], false;
        }
        hasSeparator := true;
        if setup.ModelLoadFails? {
          StatusesInOrder(false, setup, Err(setup.message));
          return Err(setup.message), [LoadingEngine, RemovalError + setup.message], false;
        }
      }
      statuses := statuses + [SeparatingVocals];
      var found;
      r, found, tempLeft := SeparateStems(tempSave, separated, files, outdir, listing);
      assert found == MdxResult(old(hasSeparator), setup, tempSave, separated, files, outdir, listing);
      StatusesInOrder(old(hasSeparator), setup, found);
      if found.Err? {
        statuses := statuses + [RemovalError + found.error];
      }
    }

    /** `cleanup`: the separator is dropped, whatever its own cleanup does. */
    method Cleanup()
      modifies this
      ensures !hasSeparator
    {
      hasSeparator := false;
    }
  }

  // ----- The processor -----

  /** The model `run` wraps for vocal removal. */
  const MdxInstModel := "UVR-MDX-NET-Inst_HQ_1.onnx"
  const DemucsModel := "htdemucs_ft"

  /** The instrument to remove: the first one asked for, lower-cased, or
      the vocals when none is. */
  function Instrument(instruments: seq<string>): (r: string)
    ensures |instruments| == 0 ==> r == VocalsName
    ensures |instruments| > 0 ==> |r| == |instruments[0]| && r == Lower(instruments[0])
  {
    if |instruments| > 0 then Lower(instruments[0]) else VocalsName
  }

  /** The output sits directly in `~/Downloads` and is named after the
      input: a prefix of its file name holding no slash, then
      `_no_<instrument>.wav`. */
  lemma OutputPathNamesInput(home: string, inputPath: string, instrument: string)
    ensures exists stem :: (stem <= Basename(inputPath) && '/' !in stem &&
      OutputPath(home, inputPath, instrument) == Join(Join(home, DownloadsDir), stem + NoInfix + instrument + WavExt))
  {
    var base := Basename(inputPath);
    var stem := SplitextRoot(base);
    assert forall i :: 0 <= i < |stem| ==> stem[i] == base[i];
    assert '/' !in stem;
  }

  /** `~/Downloads/<input name without extension>_no_<instrument>.wav`. */
  function OutputPath(home: string, inputPath: string, instrument: string): (r: string)
    ensures Join(home, DownloadsDir) <= r && EndsWith(r, NoInfix + instrument + WavExt)
  {
    var root := SplitextRoot(Basename(inputPath));
    var name := root + NoInfix + instrument + WavExt;
    assert name == root + (NoInfix + instrument + WavExt);
    EndsWithAppend(root, NoInfix + instrument + WavExt);
    assert name[0] != '/' by {
      if |root| > 0 {
        assert root[0] == Basename(inputPath)[0];
      }
    }
    JoinShape(home, DownloadsDir);
    JoinShape(Join(home, DownloadsDir), name);
    EndsWithTransitive(Join(Join(home, DownloadsDir), name), name, NoInfix + instrument + WavExt);
    Join(Join(home, DownloadsDir), name)
  }

  /** Which engine `run` uses. */
  datatype Route = MdxRoute | DemucsRoute(instrument: string)

  function RouteFor(instrument: string): (r: Route)
    ensures r.MdxRoute? <==> instrument == VocalsName
  {
    if instrument == VocalsName then MdxRoute else DemucsRoute(instrument)
  }

  /** The status announcing the route. */
  function RouteStatus(route: Route): string
  {
    match route
    case MdxRoute => MdxRouteStatus
    case DemucsRoute(instrument) => DemucsRoutePrefix + instrument + DemucsRouteSuffix
  }

  /** Stem `i` is saved: its label differs from the instrument, ignoring case. */
  predicate Kept(labels: seq<string>, instrument: string, i: nat)
    requires i < |labels|
  {
    Lower(labels[i]) != instrument
  }

  /** The last of the first `k` stems that is kept, if any. */
  function LastKeptIndex(labels: seq<string>, instrument: string, k: nat): (r: Option<nat>)
    requires k <= |labels|
    ensures r.None? <==> forall i :: 0 <= i < k ==> !Kept(labels, instrument, i)
    ensures r.Some? ==> r.value < k && Kept(labels, instrument, r.value)
    ensures r.Some? ==> forall j :: r.value < j < k ==> !Kept(labels, instrument, j)
    decreases k
  {
    if k == 0 then None
    else if Kept(labels, instrument, k - 1) then Some(k - 1)
    else LastKeptIndex(labels, instrument, k - 1)
  }

  /** The content the output file is left with after the save loop has
      gone through the first `k` stems: the last kept one, or none when
      every one is the removed instrument. */
  function LastKept(labels: seq<string>, stems: seq<Tensor>, instrument: string, k: nat): (r: Option<Tensor>)
    requires |labels| == |stems| && k <= |labels|
    ensures r.None? <==> forall i :: 0 <= i < k ==> !Kept(labels, instrument, i)
    ensures r.Some? ==> exists i :: (0 <= i < k && Kept(labels, instrument, i) && r == FixTensor(Some(stems[i]), false) &&
      forall j :: i < j < k ==> !Kept(labels, instrument, j))
  {
    var last := LastKeptIndex(labels, instrument, k);
    if last.None? then None else FixTensor(Some(stems[last.value]), false)
  }

  /** The save of stem `i` is attempted and raises: the stem is kept and
      `saveErrors[i]` is the error `torchaudio.save` raises for it. */
  predicate SaveFails(labels: seq<string>, instrument: string, saveErrors: seq<Option<string>>, i: nat)
    requires |saveErrors| == |labels| && i < |labels|
  {
    Kept(labels, instrument, i) && saveErrors[i].Some?
  }

  /** The first of the first `k` stems whose save raises, if any. */
  function FirstFailedSave(labels: seq<string>, instrument: string, saveErrors: seq<Option<string>>, k: nat)
    : (r: Option<nat>)
    requires |saveErrors| == |labels| && k <= |labels|
    ensures r.None? <==> forall i :: 0 <= i < k ==> !SaveFails(labels, instrument, saveErrors, i)
    ensures r.Some? ==> r.value < k && SaveFails(labels, instrument, saveErrors, r.value)
    ensures r.Some? ==> forall j :: 0 <= j < r.value ==> !SaveFails(labels, instrument, saveErrors, j)
    decreases k
  {
    if k == 0 then None
    else
      var before := FirstFailedSave(labels, instrument, saveErrors, k - 1);
      if before.Some? then before
      else if SaveFails(labels, instrument, saveErrors, k - 1) then Some(k - 1)
      else None
  }

  /** When stem `i` is the first whose save raises, it is the first
      failing save of all the stems. */
  lemma FirstFailedSaveAt(labels: seq<string>, instrument: string, saveErrors: seq<Option<string>>, i: nat)
    requires |saveErrors| == |labels| && i < |labels|
    requires FirstFailedSave(labels, instrument, saveErrors, i).None?
    requires Kept(labels, instrument, i) && saveErrors[i].Some?
    ensures FirstFailedSave(labels, instrument, saveErrors, |labels|) == Some(i)
  {
    assert SaveFails(labels, instrument, saveErrors, i);
  }

  /** The save loop: every kept stem is written to the same path, in order,
      and the first save that raises ends the loop. `saveErrors[i]` is what
      saving stem `i` would raise; `saved` is what the file holds
      afterwards, the content the last successful save wrote. */
  method SaveKept(labels: seq<string>, stems: seq<Tensor>, instrument: string, saveErrors: seq<Option<string>>)
    returns (saved: Option<Tensor>, error: Option<string>)
    requires |labels| == |stems| == |saveErrors|
    ensures var fail := FirstFailedSave(labels, instrument, saveErrors, |labels|);
      && (error.Some? <==> fail.Some?)
      && (fail.Some? ==> error == saveErrors[fail.value] && saved == LastKept(labels, stems, instrument, fail.value))
      && (fail.None? ==> saved == LastKept(labels, stems, instrument, |labels|))
  {
    saved, error := None, None;
    var i := 0;
    while i < |labels|
      invariant 0 <= i <= |labels|
      invariant saved == LastKept(labels, stems, instrument, i)
      invariant FirstFailedSave(labels, instrument, saveErrors, i).None?
    {
      if Lower(labels[i]) != instrument {
        if saveErrors[i].Some? {
          FirstFailedSaveAt(labels, instrument, saveErrors, i);
          return saved, saveErrors[i];
        }
        assert LastKeptIndex(labels, instrument, i + 1) == Some(i);
        saved := FixTensor(Some(stems[i]), false);
      } else {
        assert LastKeptIndex(labels, instrument, i + 1) == LastKeptIndex(labels, instrument, i);
      }
      i := i + 1;
    }
  }

  /** How `run` ends: the audio cannot be loaded, a later step raises, or
      the output is saved. The statuses are those of the MDX wrapper or of
      the model load. */
  datatype Outcome =
    | LoadFailed(message: string)
    | Failed(route: Route, statuses: seq<string>, message: string)
    | Done(route: Route, statuses: seq<string>, path: string)

  const LoadingFile := "Loading audio file..."

  /** The signals of a run that got as far as choosing its route. */
  function Routed(route: Route, statuses: seq<string>): seq<Event>
  {
    [Status(LoadingFile), Status(RouteStatus(route)), Progress(30)] + StatusEvents(statuses)
  }

  /** The signals `run` emits for each outcome. */
  function Trace(o: Outcome): seq<Event>
  {
    match o
    case LoadFailed(m) => [Status(LoadingFile), Status(ErrorPrefix + m), Finished("")]
    case Failed(route, st, m) => Routed(route, st) + [Status(ErrorPrefix + m), Finished("")]
    case Done(route, st, p) => Routed(route, st) + [Progress(100), Status(CompletePrefix + p), Finished(p)]
  }

  class AudioProcessor {
    var cancelled: bool
    /** `_current_mdx_model`. */
    var currentMdx: MdxWrapper?
    const modelManager: DemucsManager.ModelManager

    /** The manager's device is replaced by the preferred one of the machine. */
    constructor(manager: DemucsManager.ModelManager, mps: bool, cuda: bool)
      modifies manager
      ensures modelManager == manager && manager.device == DemucsManager.PreferredDevice(mps, cuda)
      ensures !cancelled && currentMdx == null
    {
      modelManager := manager;
      cancelled := false;
      currentMdx := null;
      new;
      manager.device := DemucsManager.PreferredDevice(mps, cuda);
    }

    /** `cancel`: raises the flag and cleans up the current wrapper. */
    method Cancel()
      modifies this, currentMdx
      ensures cancelled && currentMdx == old(currentMdx)
      ensures currentMdx != null ==> !currentMdx.hasSeparator
    {
      cancelled := true;
      if currentMdx != null {
        currentMdx.Cleanup();
      }
    }

    /** The vocals route of `run`: a fresh wrapper separates the input and
        is cleaned up, then the instrumental is saved to `path`. */
    method RemoveVocals(setup: Setup, tempSave: Option<string>, separated: Result<SeparatorOutput>,
                        files: map<string, Tensor>, outdir: string, listing: seq<string>,
                        saveError: Option<string>, path: string)
      returns (outcome: Outcome, saved: Option<Tensor>)
      requires Listed(files, outdir, listing)
      modifies this
      ensures cancelled == old(cancelled)
      ensures fresh(currentMdx) && !currentMdx.hasSeparator && currentMdx.modelPath == MdxInstModel
      ensures VocalsRun(setup, tempSave, separated, files, outdir, listing, saveError, path, outcome, saved)
    {
      var mdx := new MdxWrapper(MdxInstModel);
      currentMdx := mdx;
      var sources, statuses, tempLeft := mdx.Call(setup, tempSave, separated, files, outdir, listing);
      mdx.Cleanup();
      saved := None;
      if sources.Err? {
        outcome := Failed(MdxRoute, statuses, sources.error);
      } else if |sources.value| < 2 {
        outcome := Failed(MdxRoute, statuses, RemovalFailed);
      } else if saveError.Some? {
        outcome := Failed(MdxRoute, statuses, saveError.value);
      } else {
        saved := FixTensor(Some(sources.value[1]), false);
        outcome := Done(MdxRoute, statuses, path);
      }
    }

    /** The route of `run` for any other instrument: Demucs separates the
        batched input and every kept stem is saved to `path`. */
    method RemoveWithDemucs(instrument: string, wave: Tensor, getModel: Result<seq<string>>,
                            applied: Result<seq<Tensor>>, saveErrors: seq<Option<string>>, path: string)
      returns (outcome: Outcome, saved: Option<Tensor>, modelInput: Option<Tensor>)
      requires getModel.Ok? && applied.Ok? ==> |applied.value| == |getModel.value| == |saveErrors|
      ensures DemucsRun(modelManager.device, instrument, wave, getModel, applied, saveErrors, path, outcome, saved, modelInput)
    {
      assert DemucsModel[0] == 'h';
      var model, statuses := modelManager.LoadModelSafely(DemucsModel, true, getModel);
      saved, modelInput := None, None;
      var route := DemucsRoute(instrument);
      if model.Err? {
        outcome := Failed(route, statuses, model.error);
      } else {
        modelInput := FixTensor(Some(wave), true);
        if applied.Err? {
          outcome := Failed(route, statuses, applied.error);
        } else {
          var error;
          saved, error := SaveKept(model.value.sources, applied.value, instrument, saveErrors);
          outcome := if error.Some? then Failed(route, statuses, error.value) else Done(route, statuses, path);
        }
      }
    }

    /** `run`. `load` is what torchaudio gives for the input. The vocals
        route calls a fresh wrapper with the MDX inputs; any other route
        loads "htdemucs_ft" through the manager, with `getModel` standing
        for `get_model` and `applied` for the stems `apply_model` returns
        for `modelInput`. `saveError` is the error of the vocals route's
        final save, if it fails, `saveErrors[i]` that of saving Demucs stem
        `i`, and `saved` is what the output file holds afterwards.
        The flag `cancelled` is lowered and never read. */
    method Run(inputPath: string, instruments: seq<string>, home: string, load: Result<Tensor>,
               setup: Setup, tempSave: Option<string>, separated: Result<SeparatorOutput>,
               files: map<string, Tensor>, outdir: string, listing: seq<string>,
               getModel: Result<seq<string>>, applied: Result<seq<Tensor>>, saveError: Option<string>,
               saveErrors: seq<Option<string>>)
      returns (result: Option<string>, events: seq<Event>, outcome: Outcome, saved: Option<Tensor>, modelInput: Option<Tensor>)
      requires Listed(files, outdir, listing)
      requires getModel.Ok? && applied.Ok? ==> |applied.value| == |getModel.value| == |saveErrors|
      modifies this
      ensures events == Trace(outcome)
      ensures result == (if outcome.Done? then Some(outcome.path) else None)
      ensures !cancelled
      ensures load.Err? ==> outcome == LoadFailed(load.error) && saved.None? && modelInput.None? && currentMdx == old(currentMdx)
      ensures load.Ok? && Instrument(instruments) == VocalsName ==>
        && fresh(currentMdx) && !currentMdx.hasSeparator && currentMdx.modelPath == MdxInstModel
        && modelInput.None?
        && VocalsRun(setup, tempSave, separated, files, outdir, listing, saveError,
                     OutputPath(home, inputPath, VocalsName), outcome, saved)
      ensures load.Ok? && Instrument(instruments) != VocalsName ==>
        && currentMdx == old(currentMdx)
        && DemucsRun(modelManager.device, Instrument(instruments), load.value, getModel, applied, saveErrors,
                     OutputPath(home, inputPath, Instrument(instruments)), outcome, saved, modelInput)
    {
      cancelled := false;
      if load.Err? {
        outcome, saved, modelInput := LoadFailed(load.error), None, None;
      } else {
        var instrument := Instrument(instruments);
        var path := OutputPath(home, inputPath, instrument);
        if instrument == VocalsName {
          outcome, saved := RemoveVocals(setup, tempSave, separated, files, outdir, listing, saveError, path);
          modelInput := None;
        } else {
          outcome, saved, modelInput := RemoveWithDemucs(instrument, load.value, getModel, applied, saveErrors, path);
        }
      }
      events := Trace(outcome);
      result := if outcome.Done? then Some(outcome.path) else None;
    }
  }

  /** How the vocals route ends: with the wrapper's statuses, saved when
      the wrapper found both stems and the save succeeds, the instrumental
      stem being what the file then holds. */
  predicate VocalsRun(setup: Setup, tempSave: Option<string>, separated: Result<SeparatorOutput>,
                      files: map<string, Tensor>, outdir: string, listing: seq<string>,
                      saveError: Option<string>, path: string, outcome: Outcome, saved: Option<Tensor>)
    requires Listed(files, outdir, listing)
  {
    var m := MdxResult(false, setup, tempSave, separated, files, outdir, listing);
    && !outcome.LoadFailed? && outcome.route == MdxRoute
    && outcome.statuses == MdxStatuses(false, setup, m)
    && (outcome.Done? <==> m.Ok? && saveError.None?)
    && (outcome.Done? ==> outcome.path == path && saved == FixTensor(FixTensor(Some(files[m.value.1]), false), false))
    && (outcome.Failed? ==> outcome.message == (if m.Err? then m.error else saveError.value) && saved.None?)
  }

  /** How the Demucs route ends: with the statuses of the model load;
      failed when the load, the separation or a save raises, the file then
      holding what the saves before the failing one wrote; otherwise saved,
      the file holding the last kept stem (or never written when no stem is
      kept). */
  predicate DemucsRun(device: string, instrument: string, wave: Tensor, getModel: Result<seq<string>>,
                      applied: Result<seq<Tensor>>, saveErrors: seq<Option<string>>, path: string,
                      outcome: Outcome, saved: Option<Tensor>, modelInput: Option<Tensor>)
    requires getModel.Ok? && applied.Ok? ==> |applied.value| == |getModel.value| == |saveErrors|
  {
    && !outcome.LoadFailed? && outcome.route == DemucsRoute(instrument)
    && outcome.statuses == [DemucsManager.LoadingStatus(DemucsModel, device)]
         + (if getModel.Err? then [DemucsManager.LoadErrorStatus(DemucsModel, getModel.error)] else [])
    && modelInput == (if getModel.Ok? then FixTensor(Some(wave), true) else None)
    && (getModel.Err? ==> outcome.Failed? && outcome.message == getModel.error && saved.None?)
    && (getModel.Ok? && applied.Err? ==> outcome.Failed? && outcome.message == applied.error && saved.None?)
    && (getModel.Ok? && applied.Ok? ==>
          var labels := getModel.value;
          var fail := FirstFailedSave(labels, instrument, saveErrors, |labels|);
          && (outcome.Done? <==> fail.None?)
          && (outcome.Done? ==> outcome.path == path && saved == LastKept(labels, applied.value, instrument, |labels|))
          && (outcome.Failed? ==> outcome.message == saveErrors[fail.value].value
                                  && saved == LastKept(labels, applied.value, instrument, fail.value)))
  }

  /** Every run ends with exactly one `processing_finished`, its last
      signal: the output path when it succeeds, the empty text otherwise. */
  lemma TraceEndsOnce(o: Outcome)
    ensures |Trace(o)| >= 3 && Trace(o)[0] == Status(LoadingFile)
    ensures forall i :: 0 <= i < |Trace(o)| - 1 ==> !Trace(o)[i].Finished?
    ensures Trace(o)[|Trace(o)| - 1] == Finished(if o.Done? then o.path else "")
  {
    if !o.LoadFailed? {
      var t := Trace(o);
      var p := Routed(o.route, o.statuses);
      assert t[..|p|] == p;
      forall i | 0 <= i < |t| - 1
        ensures !t[i].Finished?
      {
        if i < |p| {
          assert t[i] == p[i];
          if i >= 3 {
            assert p[i] == StatusEvents(o.statuses)[i - 3];
          }
        }
      }
    }
  }

  /** Progress reaches 30 once a route is chosen and 100 only on success. */
  lemma TraceSteps(o: Outcome)
    ensures ProgressValues(Trace(o)) == (match o
      case LoadFailed(_) => []
      case Failed(_, _, _) => [30]
      case Done(_, _, _) => [30, 100])
  {
    match o
    case LoadFailed(m) => LoadFailedSteps(m);
    case Failed(route, st, m) => FailedSteps(route, st, m);
    case Done(route, st, p) => DoneSteps(route, st, p);
  }

  /** A run whose audio cannot be loaded reports no progress. */
  lemma LoadFailedSteps(m: string)
    ensures ProgressValues(Trace(LoadFailed(m))) == []
  {
    var s0, s1 := Status(LoadingFile), Status(ErrorPrefix + m);
    Snoc([], s0);
    assert [] + [s0] == [s0];
    Snoc([s0], s1);
    assert [s0] + [s1] == [s0, s1];
    Snoc([s0, s1], Finished(""));
    assert [s0, s1] + [Finished("")] == Trace(LoadFailed(m));
  }

  /** A run failing after the route is chosen reports 30 only. */
  lemma FailedSteps(route: Route, st: seq<string>, m: string)
    ensures ProgressValues(Trace(Failed(route, st, m))) == [30]
  {
    var s1 := Status(ErrorPrefix + m);
    RoutedSteps(route, st);
    Snoc([s1], Finished(""));
    assert [s1] + [Finished("")] == [s1, Finished("")];
    ProgressValuesAppend(Routed(route, st), [s1, Finished("")]);
  }

  /** A run that saves its output reports 30, then 100. */
  lemma DoneSteps(route: Route, st: seq<string>, p: string)
    ensures ProgressValues(Trace(Done(route, st, p))) == [30, 100]
  {
    RoutedSteps(route, st);
    var c := Status(CompletePrefix + p);
    Snoc([Progress(100)], c);
    assert [Progress(100)] + [c] == [Progress(100), c];
    Snoc([Progress(100), c], Finished(p));
    assert [Progress(100), c] + [Finished(p)] == [Progress(100), c, Finished(p)];
    ProgressValuesAppend(Routed(route, st), [Progress(100), c, Finished(p)]);
  }

  /** Choosing a route reports 30. */
  lemma RoutedSteps(route: Route, statuses: seq<string>)
    ensures ProgressValues(Routed(route, statuses)) == [30]
  {
    var s0, s1 := Status(LoadingFile), Status(RouteStatus(route));
    Snoc([], s0);
    assert [] + [s0] == [s0];
    Snoc([s0], s1);
    assert [s0] + [s1] == [s0, s1];
    Snoc([s0, s1], Progress(30));
    assert [s0, s1] + [Progress(30)] == [s0, s1, Progress(30)];
    StatusesHaveNoProgress(StatusEvents(statuses));
    ProgressValuesAppend([s0, s1, Progress(30)], StatusEvents(statuses));
  }
}
