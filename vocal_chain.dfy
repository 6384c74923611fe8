/** audio/vocal_chain.py: the parameters of the vocal effects chain and its
    processing, which for now passes audio through. */
module VocalChainFx {
  import opened Common

  /** The five settings of the chain. */
  datatype Params = Params(enabled: bool, eqGainDb: real, compThreshold: real, compRatio: real, reverbAmount: real)

  /** The settings of a fresh chain. */
  const Defaults := Params(true, 0.0, -12.0, 2.0, 0.2)

  /** The arguments of `set_params`; `None` leaves a setting alone. */
  datatype Update = Update(eqGainDb: Option<real>, compThreshold: Option<real>, compRatio: Option<real>,
                           reverbAmount: Option<real>, enabled: Option<bool>)

  const NoChange := Update(None, None, None, None, None)

  function Pick<T>(given: Option<T>, current: T): T
  {
    if given.Some? then given.value else current
  }

  /** The settings after an update: each one given is taken, the rest kept. */
  function Apply(p: Params, u: Update): (r: Params)
    ensures u.enabled.Some? ==> r.enabled == u.enabled.value
    ensures u.enabled.None? ==> r.enabled == p.enabled
    ensures u.eqGainDb.Some? ==> r.eqGainDb == u.eqGainDb.value
    ensures u.eqGainDb.None? ==> r.eqGainDb == p.eqGainDb
    ensures u.compThreshold.Some? ==> r.compThreshold == u.compThreshold.value
    ensures u.compThreshold.None? ==> r.compThreshold == p.compThreshold
    ensures u.compRatio.Some? ==> r.compRatio == u.compRatio.value
    ensures u.compRatio.None? ==> r.compRatio == p.compRatio
    ensures u.reverbAmount.Some? ==> r.reverbAmount == u.reverbAmount.value
    ensures u.reverbAmount.None? ==> r.reverbAmount == p.reverbAmount
  {
    Params(Pick(u.enabled, p.enabled), Pick(u.eqGainDb, p.eqGainDb), Pick(u.compThreshold, p.compThreshold),
           Pick(u.compRatio, p.compRatio), Pick(u.reverbAmount, p.reverbAmount))
  }

  /** A call with no arguments changes nothing. */
  lemma NoChangeIsIdentity(p: Params)
    ensures Apply(p, NoChange) == p
  {
  }

  /** Repeating a call has no further effect. */
  lemma ApplyIdempotent(p: Params, u: Update)
    ensures Apply(Apply(p, u), u) == Apply(p, u)
  {
  }

  /** A call that gives every setting forgets the old ones. */
  lemma FullUpdateOverwrites(p: Params, q: Params)
    ensures Apply(p, Update(Some(q.eqGainDb), Some(q.compThreshold), Some(q.compRatio),
                            Some(q.reverbAmount), Some(q.enabled))) == q
  {
  }

  class VocalChain {
    var enabled: bool
    var eqGainDb: real
    var compThreshold: real
    var compRatio: real
    var reverbAmount: real

    function Current(): Params
      reads this
    {
      Params(enabled, eqGainDb, compThreshold, compRatio, reverbAmount)
    }

    constructor()
      ensures Current() == Defaults
    {
      enabled := true;
      eqGainDb := 0.0;
      compThreshold := -12.0;
      compRatio := 2.0;
      reverbAmount := 0.2;
    }

    /** `set_params`: overwrites exactly the settings given. */
    method SetParams(u: Update)
      modifies this
      ensures Current() == Apply(old(Current()), u)
    {
      if u.eqGainDb.Some? {
        eqGainDb := u.eqGainDb.value;
      }
      if u.compThreshold.Some? {
        compThreshold := u.compThreshold.value;
      }
      if u.compRatio.Some? {
        compRatio := u.compRatio.value;
      }
      if u.reverbAmount.Some? {
        reverbAmount := u.reverbAmount.value;
      }
      if u.enabled.Some? {
        enabled := u.enabled.value;
      }
    }

    /** `process`: the audio comes back unchanged, enabled or not, and the
        chain itself is left as it was. */
    method Process(audio: seq<Frame>, sampleRate: int) returns (r: seq<Frame>)
      ensures r == audio
    {
      if !enabled {
        return audio;
      }
      r := audio;
    }
  }
}
