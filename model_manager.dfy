/** model_manager.py: the device Demucs runs on and the loading of a model
    by name. The torch probes are booleans and `get_model` is an input. */
module DemucsManager {
  import opened Common

  /** The device chosen when none is given: MPS, then CUDA, then the CPU. */
  function PreferredDevice(mps: bool, cuda: bool): (d: string)
    ensures d == "mps" <==> mps
    ensures d == "cuda" <==> !mps && cuda
    ensures d == "cpu" <==> !mps && !cuda
  {
    if mps then "mps" else if cuda then "cuda" else "cpu"
  }

  /** What `load_model_safely` returns: the name itself for an MDX model,
      or the pretrained Demucs model with the labels of its stems. */
  datatype LoadedModel = Passthrough(name: string) | Pretrained(name: string, sources: seq<string>)

  /** The status sent before loading. */
  function LoadingStatus(name: string, device: string): string
  {
    "Loading model " + name + " on " + device + "..."
  }

  /** The status sent when loading raises. */
  function LoadErrorStatus(name: string, cause: string): string
  {
    "Error loading model " + name + ": " + cause
  }

  class ModelManager {
    var device: string

    /** A device given as a non-empty string is used as it is; otherwise
        the preferred one of the machine. */
    constructor(requested: Option<string>, mps: bool, cuda: bool)
      ensures requested.Some? && requested.value != "" ==> device == requested.value
      ensures requested.None? || requested.value == "" ==> device == PreferredDevice(mps, cuda)
    {
      if requested.Some? && requested.value != "" {
        device := requested.value;
      } else {
        device := PreferredDevice(mps, cuda);
      }
    }

    /** Loads `name`: a name starting with "mdx" is handed back without a
        load; any other goes to `get_model`, whose result is `getModel`.
        With a callback the loading status comes first, and a failure is
        reported to it before the error is raised again. Nothing is
        remembered between calls. */
    method LoadModelSafely(name: string, hasCallback: bool, getModel: Result<seq<string>>)
      returns (r: Result<LoadedModel>, statuses: seq<string>)
      ensures "mdx" <= name ==> r == Ok(Passthrough(name))
      ensures !("mdx" <= name) && getModel.Ok? ==> r == Ok(Pretrained(name, getModel.value))
      ensures !("mdx" <= name) && getModel.Err? ==> r == Err(getModel.error)
      ensures !hasCallback ==> statuses == []
      ensures hasCallback && r.Ok? ==> statuses == [LoadingStatus(name, device)]
      ensures hasCallback && r.Err? ==> statuses == [LoadingStatus(name, device), LoadErrorStatus(name, r.error)]
    {
      statuses := if hasCallback then [LoadingStatus(name, device)] else [];
      if "mdx" <= name {
        return Ok(Passthrough(name)), statuses;
      }
      if getModel.Err? {
        if hasCallback {
          statuses := statuses + [LoadErrorStatus(name, getModel.error)];
        }
        return Err(getModel.error), statuses;
      }
      r := Ok(Pretrained(name, getModel.value));
    }
  }

  /** Unlike the manager in audio/processor.py, this one keeps no record
      of failures: a load that failed is attempted again, and succeeds as
      soon as `get_model` does. */
  method RetryAfterFailure(m: ModelManager, name: string, cause: string, sources: seq<string>)
    returns (first: Result<LoadedModel>, second: Result<LoadedModel>)
    requires !("mdx" <= name)
    ensures first == Err(cause) && second == Ok(Pretrained(name, sources))
  {
    var statuses;
    first, statuses := m.LoadModelSafely(name, true, Err(cause));
    second, statuses := m.LoadModelSafely(name, true, Ok(sources));
  }
}
