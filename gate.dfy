/** The admission gate: the `building` atomic.Bool of ListenFlags, shared by
    every handler invocation. A successful acquire records `Admitted` and a
    release records `Released` in the daemon's effect log. */
module Gate {
  import opened Daemon

  class AdmissionGate {
    var building: bool

    /** atomic.NewBool(false) */
    constructor ()
      ensures !building
    {
      building := false;
    }

    /** building.CAS(false, true), one atomic step: succeeds exactly when no build
        holds the gate, and afterwards the gate is held either way. */
    method TryAcquire(log: EffectLog) returns (ok: bool)
      modifies this, log
      ensures ok == !old(building)
      ensures building
      ensures log.events == old(log.events) + (if ok then [Admitted] else [])
    {
      ok := !building;
      if ok {
        building := true;
        log.Record(Admitted);
      }
    }

    /** building.Store(false): unconditional release. */
    method Release(log: EffectLog)
      modifies this, log
      ensures !building
      ensures log.events == old(log.events) + [Released]
    {
      building := false;
      log.Record(Released);
    }

    /** building.Load(): a read that changes nothing. */
    method IsBusy() returns (busy: bool)
      ensures busy == building
    {
      busy := building;
    }
  }

  /** Two build requests racing for the gate, the CAS being atomic: at most one
      of them is admitted, and one is whenever the gate was free. */
  method ContendedAcquire(gate: AdmissionGate, log: EffectLog) returns (first: bool, second: bool)
    modifies gate, log
    ensures !(first && second)
    ensures first || second <==> !old(gate.building)
    ensures gate.building
    ensures log.events == old(log.events) + (if first || second then [Admitted] else [])
  {
    first := gate.TryAcquire(log);
    second := gate.TryAcquire(log);
  }
}
