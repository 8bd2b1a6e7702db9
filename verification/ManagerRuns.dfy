/** A processor of the step machine, left alone, does what the enclave manager's code does. */
module ManagerRuns {
  import opened WorkOrders
  import opened EnclaveManager

  /** Steps until the processor rests again. */
  function ProcSteps(pc: Proc): nat {
    match pc
    case Resting => 0
    case Popped(_) => 6
    case Fetched(_, _) => 5
    case Marked(_, _) => 4
    case Rejected(_, _) => 3
    case Ran(_, _, _) => 3
    case Stored(_) => 2
    case Listed(_) => 1
  }

  function Outcome(pc: Proc, enclave: Enclave): bool {
    pc.Marked? && enclave(pc.request)
  }

  /** The processor finishing the order it holds with nobody else moving. */
  function Worked(s: State, p: Identity, w: Worker, enclave: Enclave): State
    decreases ProcSteps(ProcOf(s, p))
  {
    var pc := ProcOf(s, p);
    if pc.Resting? then s else Worked(ProcStep(s, p, w, Outcome(pc, enclave)), p, w, enclave)
  }

  lemma FromStored(s: State, p: Identity, w: Worker, enclave: Enclave)
    requires ProcOf(s, p).Stored?
    ensures var s' := Worked(s, p, w, enclave);
            && ProcOf(s', p).Resting?
            && s'.kv == s.kv.(processed := SetRow(s.kv.processed, w, Row(s.kv.processed, w) + [ProcOf(s, p).id]),
                              processing := s.kv.processing - {p})
  {
    var s1 := ProcStep(s, p, w, false);
    assert Worked(s, p, w, enclave) == Worked(s1, p, w, enclave);
    assert Worked(s1, p, w, enclave) == ProcStep(s1, p, w, false);
  }

  /** Writing the response and everything after it. */
  lemma FromResponse(s: State, p: Identity, w: Worker, enclave: Enclave)
    requires ProcOf(s, p).Ran? || ProcOf(s, p).Rejected?
    ensures var s', pc := Worked(s, p, w, enclave), ProcOf(s, p);
            && ProcOf(s', p).Resting?
            && s'.kv == s.kv.(responses := s.kv.responses[pc.id := Response(pc.request, pc.Rejected? || pc.failed)],
                              processed := SetRow(s.kv.processed, w, Row(s.kv.processed, w) + [pc.id]),
                              processing := s.kv.processing - {p})
  {
    FromStored(ProcStep(s, p, w, false), p, w, enclave);
  }

  lemma FromFetched(s: State, p: Identity, w: Worker, enclave: Enclave)
    requires ProcOf(s, p).Fetched?
    ensures var s', pc := Worked(s, p, w, enclave), ProcOf(s, p);
            && ProcOf(s', p).Resting?
            && s'.kv == s.kv.(responses := s.kv.responses[pc.id := ResponseTo(pc.request, enclave)],
                              processed := SetRow(s.kv.processed, w, Row(s.kv.processed, w) + [pc.id]),
                              processing := s.kv.processing - {p})
  {
    var r := ProcOf(s, p).request;
    var s1 := ProcStep(s, p, w, false);
    assert Worked(s, p, w, enclave) == Worked(s1, p, w, enclave);
    if r.parses {
      var s2 := ProcStep(s1, p, w, enclave(r));
      assert Worked(s1, p, w, enclave) == Worked(s2, p, w, enclave);
      FromResponse(s2, p, w, enclave);
      assert s1.kv.processing - {p} == s.kv.processing - {p};
    } else {
      FromResponse(s1, p, w, enclave);
    }
  }

  lemma FromPopped(s: State, p: Identity, w: Worker, enclave: Enclave)
    requires ProcOf(s, p).Popped?
    ensures var s' := Worked(s, p, w, enclave);
            ProcOf(s', p).Resting? && s'.kv == OrderDone(s.kv, w, p, ProcOf(s, p).id, enclave)
  {
    var s1 := ProcStep(s, p, w, false);
    assert Worked(s, p, w, enclave) == Worked(s1, p, w, enclave);
    if ProcOf(s, p).id in s.kv.requests {
      FromFetched(s1, p, w, enclave);
    } else {
      assert Worked(s1, p, w, enclave) == ProcStep(s1, p, w, false);
    }
  }

  /** The processor working until its worker's queue is empty, nobody else moving. */
  ghost function WorkedOff(s: State, p: Identity, w: Worker, enclave: Enclave): State
    requires ProcOf(s, p).Resting?
    decreases |Row(s.kv.scheduled, w)|
  {
    if Row(s.kv.scheduled, w) == [] then s
    else
      var s1 := ProcStep(s, p, w, false);
      FromPopped(s1, p, w, enclave);
      FirstDoneLists(s.kv, w, p, enclave);
      WorkedOff(Worked(s1, p, w, enclave), p, w, enclave)
  }

  /** The whole queue worked off, as a function of the tables alone. */
  function DrainedAll(kv: Kv, w: Worker, p: Identity, enclave: Enclave): Kv
    decreases |Row(kv.scheduled, w)|
  {
    if Row(kv.scheduled, w) == [] then kv
    else
      FirstDoneLists(kv, w, p, enclave);
      DrainedAll(FirstDone(kv, w, p, enclave), w, p, enclave)
  }

  lemma {:induction false} DrainedWhole(kv: Kv, w: Worker, p: Identity, enclave: Enclave)
    ensures DrainedAll(kv, w, p, enclave) == Drained(kv, w, p, enclave, |Row(kv.scheduled, w)|)
    decreases |Row(kv.scheduled, w)|
  {
    if Row(kv.scheduled, w) != [] {
      DrainedStep(kv, w, p, enclave, |Row(kv.scheduled, w)|);
      DrainedWhole(FirstDone(kv, w, p, enclave), w, p, enclave);
    }
  }

  lemma {:induction false} WorkedOffTables(s: State, p: Identity, w: Worker, enclave: Enclave)
    requires ProcOf(s, p).Resting?
    ensures WorkedOff(s, p, w, enclave).kv == DrainedAll(s.kv, w, p, enclave)
    decreases |Row(s.kv.scheduled, w)|
  {
    if Row(s.kv.scheduled, w) != [] {
      var s1 := ProcStep(s, p, w, false);
      FromPopped(s1, p, w, enclave);
      FirstDoneLists(s.kv, w, p, enclave);
      WorkedOffTables(Worked(s1, p, w, enclave), p, w, enclave);
    }
  }

  /** A processor left alone leaves the tables exactly as `Manager.ProcessWorkOrders` does. */
  lemma ProcessorRunsAsManager(s: State, p: Identity, w: Worker, enclave: Enclave)
    requires ProcOf(s, p).Resting?
    ensures WorkedOff(s, p, w, enclave).kv == Drained(s.kv, w, p, enclave, |Row(s.kv.scheduled, w)|)
  {
    WorkedOffTables(s, p, w, enclave);
    DrainedWhole(s.kv, w, p, enclave);
  }
}
