/** The environment cache of all projects in place: maps keyed by project, each entry updated on its own. */
module TenantEnvs {
  import opened Lists
  import opened TenantEnvModel

  type Ref = string

  class TenantEnvCache {
    var envCache: map<Ref, Load>
    var envInflightLoads: map<Ref, nat>
    var cacheEpochs: map<Ref, nat>
    var dispatchOrdinals: map<Ref, nat>
    var loadedObservations: map<Ref, Observation>
    var loads: map<Ref, seq<Loading>>
    ghost var accepted: map<Ref, seq<Observation>>

    // What the maps say of one project; an absent entry reads as zero, none or empty.
    ghost function Of(ref: Ref): Tenant
      reads this
    {
      Tenant(
        if ref in cacheEpochs then cacheEpochs[ref] else 0,
        if ref in envCache then Some(envCache[ref]) else None,
        if ref in envInflightLoads then Some(envInflightLoads[ref]) else None,
        if ref in loads then loads[ref] else [],
        if ref in dispatchOrdinals then dispatchOrdinals[ref] else 0,
        if ref in loadedObservations then Some(loadedObservations[ref]) else None,
        if ref in accepted then accepted[ref] else [])
    }

    constructor ()
      ensures forall ref :: Of(ref) == UNLOADED
    {
      envCache, envInflightLoads, cacheEpochs := map[], map[], map[];
      dispatchOrdinals, loadedObservations, loads, accepted := map[], map[], map[], map[];
    }

    function Epoch(ref: Ref): (n: nat)
      reads this
      ensures n == Of(ref).epoch
    {
      if ref in cacheEpochs then cacheEpochs[ref] else 0
    }

    method LoadTenantRuntimeEnv(ref: Ref, unexpired: bool) returns (a: Answer)
      modifies `envInflightLoads, `loads
      ensures a == Answered(old(Of(ref)), unexpired) && Of(ref) == Asked(old(Of(ref)), unexpired)
      ensures forall other :: other != ref ==> Of(other) == old(Of(other))
    {
      if ref in envCache && unexpired {
        return Ready(envCache[ref]);
      }
      if ref in envInflightLoads {
        return Await(envInflightLoads[ref]);
      }
      var mine := if ref in loads then loads[ref] else [];
      a := Await(|mine|);
      envInflightLoads := envInflightLoads[ref := |mine|];
      loads := loads[ref := mine + [Loading(Epoch(ref), Fetching)]];
    }

    // The uncached load is done: it is cached only if no invalidation has overtaken it.
    method FetchDone(ref: Ref, op: nat, content: nat)
      modifies `envCache, `loads
      ensures Of(ref) == DoFetch(old(Of(ref)), op, content)
      ensures forall other :: other != ref ==> Of(other) == old(Of(other))
    {
      if ref !in loads || op >= |loads[ref]| || loads[ref][op].stage != Fetching { return; }
      var load := Load(loads[ref][op].epoch, content);
      if Epoch(ref) == load.epoch {
        envCache := envCache[ref := load];
      }
      loads := loads[ref := loads[ref][op := loads[ref][op].(stage := Fetched(load))]];
    }

    method Settle(ref: Ref, op: nat, stage: Stage)
      requires op < |Of(ref).loads|
      modifies `envInflightLoads, `loads
      ensures Of(ref) == Finish(old(Of(ref)), op, stage)
      ensures forall other :: other != ref ==> Of(other) == old(Of(other))
    {
      loads := loads[ref := loads[ref][op := loads[ref][op].(stage := stage)]];
      if ref in envInflightLoads && envInflightLoads[ref] == op {
        envInflightLoads := envInflightLoads - {ref};
      }
    }

    // The continuation of a load: return it if its epoch is still current, otherwise ask again.
    method Continue(ref: Ref, op: nat, unexpired: bool)
      modifies `envInflightLoads, `loads
      ensures Of(ref) == DoResolve(old(Of(ref)), op, unexpired)
      ensures forall other :: other != ref ==> Of(other) == old(Of(other))
    {
      if ref !in loads || op >= |loads[ref]| || !loads[ref][op].stage.Fetched? { return; }
      hide Finish;
      if Epoch(ref) == loads[ref][op].epoch {
        Settle(ref, op, Settled(loads[ref][op].stage.load));
        return;
      }
      var a := LoadTenantRuntimeEnv(ref, unexpired);
      match a
      case Ready(load) => Settle(ref, op, Settled(load));
      case Await(on) => loads := loads[ref := loads[ref][op := loads[ref][op].(stage := Waiting(on))]];
    }

    method InvalidateTenantEnvCache(ref: Ref)
      modifies `cacheEpochs, `envCache, `envInflightLoads
      ensures Of(ref) == DoInvalidate(old(Of(ref)))
      ensures forall other :: other != ref ==> Of(other) == old(Of(other))
    {
      cacheEpochs := cacheEpochs[ref := Epoch(ref) + 1];
      envCache := envCache - {ref};
      envInflightLoads := envInflightLoads - {ref};
    }

    method ReserveTenantEnvDispatch(ref: Ref) returns (r: Reservation)
      modifies `dispatchOrdinals
      ensures r == Reservation(old(Of(ref)).ordinal + 1, Of(ref).epoch)
      ensures Of(ref) == Step(old(Of(ref)), Reserve)
      ensures forall other :: other != ref ==> Of(other) == old(Of(other))
    {
      var ordinal := (if ref in dispatchOrdinals then dispatchOrdinals[ref] else 0) + 1;
      dispatchOrdinals := dispatchOrdinals[ref := ordinal];
      r := Reservation(ordinal, Epoch(ref));
    }

    method RecordTenantEnvDispatch(ref: Ref, load: Load, r: Reservation)
      modifies `loadedObservations, `accepted
      ensures Of(ref) == DoRecord(old(Of(ref)), load, r)
      ensures forall other :: other != ref ==> Of(other) == old(Of(other))
    {
      if load.epoch != Epoch(ref) { return; }
      if Epoch(ref) != r.epoch { return; }
      if (if ref in loadedObservations then loadedObservations[ref].ordinal else 0) >= r.ordinal { return; }
      accepted := accepted[ref := Of(ref).accepted + [Observation(r.ordinal, load)]];
      loadedObservations := loadedObservations[ref := Observation(r.ordinal, load)];
    }
  }
}
