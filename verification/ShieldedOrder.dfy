/** Two runs in which booting keeps an order that `Leftovers.LeftForever` shows will never be
processed or purged before the next boot.

A processor records order 1 and is slow to clear its processing entry; a purge
strikes the order off and crashes; the boot finds the entry and keeps the order.
In the second run the purge had already erased the response.
*/
module ShieldedOrder {
  import opened Options
  import opened WorkOrders
  import opened Guarantees
  import opened Leftovers

  const POOL := Worker("w")
  const ENCLAVE := Identity("e")
  const ORDER := Id("1")
  const REQUEST := Request("", true)
  const FIRST := Submit(ORDER, POOL, REQUEST)
  const SECOND := Submit(Id("2"), POOL, REQUEST)
  const SMALL := Config([POOL], map[ENCLAVE := POOL], 1)

  predicate Looks(s: State, kv: Kv, l: Listener, pc: Proc, ph: Phase) {
    s.kv == kv && s.listener == l && ProcOf(s, ENCLAVE) == pc && Ph(s, ORDER) == ph
  }

  ghost predicate Shows(actions: seq<Action>, kv: Kv, l: Listener, pc: Proc, ph: Phase) {
    After(SMALL, actions).Some? && Looks(After(SMALL, actions).value, kv, l, pc, ph)
  }

  lemma Then(actions: seq<Action>, a: Action) returns (longer: seq<Action>)
    requires After(SMALL, actions).Some? && Enabled(SMALL, After(SMALL, actions).value, a)
    ensures After(SMALL, longer) == Some(Apply(SMALL, After(SMALL, actions).value, a))
    ensures longer == actions + [a]
  {
    longer := actions + [a];
    assert longer[..|actions|] == actions;
  }

  lemma Booted() returns (actions: seq<Action>)
    ensures Shows(actions, NOTHING, Up([], 0, Idle), Resting, Absent)
  {
    actions := Then([], StartBoot([]));
    actions := Then(actions, StepBoot);
  }

  const STAMPED := NOTHING.(stamps := {ORDER})
  const REQUESTED := STAMPED.(requests := map[ORDER := REQUEST])

  lemma Stamped(before: seq<Action>) returns (actions: seq<Action>)
    requires Shows(before, NOTHING, Up([], 0, Idle), Resting, Absent)
    ensures before <= actions
    ensures Shows(actions, STAMPED, Up([], 0, PutRequest(FIRST)), Resting, Accepted)
  {
    actions := Then(before, Receive(AskSubmit(FIRST)));
    actions := Then(actions, StepJob([], true));
    actions := Then(actions, StepJob([], true));
  }

  lemma Requested(before: seq<Action>) returns (actions: seq<Action>)
    requires Shows(before, STAMPED, Up([], 0, PutRequest(FIRST)), Resting, Accepted)
    ensures before <= actions
    ensures Shows(actions, REQUESTED, Up([], 0, Append(FIRST)), Resting, Accepted)
  {
    actions := Then(before, StepJob([], true));
  }

  const QUEUED := REQUESTED.(scheduled := map[POOL := [ORDER]])

  lemma Queued(before: seq<Action>) returns (actions: seq<Action>)
    requires Shows(before, REQUESTED, Up([], 0, Append(FIRST)), Resting, Accepted)
    ensures before <= actions
    ensures Shows(actions, QUEUED, Up([ORDER], 1, Idle), Resting, Scheduled(POOL))
  {
    actions := Then(before, StepJob([], true));
    assert Row(REQUESTED.scheduled, POOL) + [ORDER] == [ORDER];
    assert SetRow(REQUESTED.scheduled, POOL, [ORDER]) == map[POOL := [ORDER]];
  }

  const MARKED := REQUESTED.(processing := map[ENCLAVE := ORDER])

  lemma Taken(before: seq<Action>) returns (actions: seq<Action>)
    requires Shows(before, QUEUED, Up([ORDER], 1, Idle), Resting, Scheduled(POOL))
    ensures before <= actions
    ensures Shows(actions, REQUESTED, Up([ORDER], 1, Idle), Popped(ORDER), Held(ENCLAVE))
  {
    actions := Then(before, StepProc(ENCLAVE, false));
    assert SetRow(QUEUED.scheduled, POOL, [ORDER][1..]) == map[];
  }

  lemma Marking(before: seq<Action>) returns (actions: seq<Action>)
    requires Shows(before, REQUESTED, Up([ORDER], 1, Idle), Popped(ORDER), Held(ENCLAVE))
    ensures before <= actions
    ensures Shows(actions, MARKED, Up([ORDER], 1, Idle), Ran(ORDER, REQUEST, false), Executed(ENCLAVE))
  {
    actions := Then(before, StepProc(ENCLAVE, false));
    actions := Then(actions, StepProc(ENCLAVE, false));
    actions := Then(actions, StepProc(ENCLAVE, false));
  }

  const ANSWERED := MARKED.(responses := map[ORDER := Response(REQUEST, false)])
  const RECORDED := ANSWERED.(processed := map[POOL := [ORDER]])

  lemma Answering(before: seq<Action>) returns (actions: seq<Action>)
    requires Shows(before, MARKED, Up([ORDER], 1, Idle), Ran(ORDER, REQUEST, false), Executed(ENCLAVE))
    ensures before <= actions
    ensures Shows(actions, ANSWERED, Up([ORDER], 1, Idle), Stored(ORDER), Replied(ENCLAVE))
  {
    actions := Then(before, StepProc(ENCLAVE, false));
  }

  lemma Recording(before: seq<Action>) returns (actions: seq<Action>)
    requires Shows(before, ANSWERED, Up([ORDER], 1, Idle), Stored(ORDER), Replied(ENCLAVE))
    ensures before <= actions
    ensures Shows(actions, RECORDED, Up([ORDER], 1, Idle), Listed(ORDER), Recorded(POOL))
  {
    actions := Then(before, StepProc(ENCLAVE, false));
    assert Row(ANSWERED.processed, POOL) + [ORDER] == [ORDER];
    assert SetRow(ANSWERED.processed, POOL, [ORDER]) == map[POOL := [ORDER]];
  }

  lemma Asking(before: seq<Action>) returns (actions: seq<Action>)
    requires Shows(before, RECORDED, Up([ORDER], 1, Idle), Listed(ORDER), Recorded(POOL))
    ensures before <= actions
    ensures Shows(actions, RECORDED, Up([ORDER], 1, Scan(SECOND, [POOL], map[])), Listed(ORDER), Recorded(POOL))
  {
    actions := Then(before, Receive(AskSubmit(SECOND)));
  }

  lemma PoolScanned(s: State)
    requires s.kv == RECORDED && s.listener == Up([ORDER], 1, Scan(SECOND, [POOL], map[]))
    ensures PurgeStep(SMALL, s, []) == Goto(s, Scan(SECOND, [], map[ORDER := POOL]))
  {
    assert Row(s.kv.processed, POOL) == [ORDER] && [POOL][1..] == [];
    assert (map[] + map id | id in [ORDER] :: POOL) == map[ORDER := POOL];
  }

  lemma ScanningPool(before: seq<Action>) returns (actions: seq<Action>)
    requires Shows(before, RECORDED, Up([ORDER], 1, Scan(SECOND, [POOL], map[])), Listed(ORDER), Recorded(POOL))
    ensures before <= actions
    ensures Shows(actions, RECORDED, Up([ORDER], 1, Scan(SECOND, [], map[ORDER := POOL])), Listed(ORDER), Recorded(POOL))
  {
    PoolScanned(After(SMALL, before).value);
    actions := Then(before, StepJob([], true));
  }

  lemma Scanning(before: seq<Action>) returns (actions: seq<Action>)
    requires Shows(before, RECORDED, Up([ORDER], 1, Idle), Listed(ORDER), Recorded(POOL))
    ensures before <= actions
    ensures Shows(actions, RECORDED, Up([ORDER], 1, ReadStamps(SECOND, map[ORDER := POOL])), Listed(ORDER), Recorded(POOL))
  {
    actions := Asking(before);
    actions := ScanningPool(actions);
    actions := Then(actions, StepJob([], true));
  }

  lemma Picking(before: seq<Action>) returns (actions: seq<Action>)
    requires Shows(before, RECORDED, Up([ORDER], 1, ReadStamps(SECOND, map[ORDER := POOL])), Listed(ORDER), Recorded(POOL))
    ensures before <= actions
    ensures Shows(actions, RECORDED, Up([ORDER], 1, StrikeOff(SECOND, ORDER, POOL)), Listed(ORDER), Recorded(POOL))
  {
    actions := Then(before, StepJob([ORDER], true));
  }

  lemma Striking(before: seq<Action>) returns (actions: seq<Action>)
    requires Shows(before, RECORDED, Up([ORDER], 1, StrikeOff(SECOND, ORDER, POOL)), Listed(ORDER), Recorded(POOL))
    ensures before <= actions
    ensures Shows(actions, ANSWERED, Up([ORDER], 1, DropRequest(SECOND, ORDER)), Listed(ORDER), Struck)
  {
    actions := Then(before, StepJob([], true));
    assert SetRow(RECORDED.processed, POOL, Without([ORDER], ORDER)) == map[];
  }

  const UNREQUESTED := ANSWERED.(requests := map[])
  const ERASED := UNREQUESTED.(responses := map[])

  lemma Unrequesting(before: seq<Action>) returns (actions: seq<Action>)
    requires Shows(before, ANSWERED, Up([ORDER], 1, DropRequest(SECOND, ORDER)), Listed(ORDER), Struck)
    ensures before <= actions
    ensures Shows(actions, UNREQUESTED, Up([ORDER], 1, DropResponse(SECOND, ORDER)), Listed(ORDER), Struck)
  {
    assert ANSWERED.requests - {ORDER} == map[];
    actions := Then(before, StepJob([], true));
  }

  lemma Erasing(before: seq<Action>) returns (actions: seq<Action>)
    requires Shows(before, UNREQUESTED, Up([ORDER], 1, DropResponse(SECOND, ORDER)), Listed(ORDER), Struck)
    ensures before <= actions
    ensures Shows(actions, ERASED, Up([ORDER], 1, DropReceipt(SECOND, ORDER)), Listed(ORDER), Erased)
  {
    assert UNREQUESTED.responses - {ORDER} == map[];
    actions := Then(before, StepJob([], true));
  }

  /** A crash and a boot with the processing entry still there. */
  lemma Rebooting(before: seq<Action>, kv: Kv, job: Job, ph: Phase) returns (actions: seq<Action>)
    requires Shows(before, kv, Up([ORDER], 1, job), Listed(ORDER), ph)
    requires kv.stamps == {ORDER} && kv.processing == map[ENCLAVE := ORDER]
    ensures before <= actions
    ensures Shows(actions, kv, Up([ORDER], 1, Idle), Listed(ORDER), ph)
  {
    actions := Then(before, Crash);
    assert ENCLAVE in SMALL.home && ENCLAVE in kv.processing && kv.processing[ENCLAVE] == ORDER;
    assert IsLive(SMALL, kv, ORDER);
    actions := Then(actions, StartBoot([ORDER]));
    actions := Then(actions, StepBoot);
    actions := Then(actions, StepBoot);
  }

  /** Up to where the order is recorded, its processing entry not yet cleared. */
  lemma Processed() returns (actions: seq<Action>)
    ensures Shows(actions, RECORDED, Up([ORDER], 1, Idle), Listed(ORDER), Recorded(POOL))
  {
    actions := Booted();
    actions := Stamped(actions);
    actions := Requested(actions);
    actions := Queued(actions);
    actions := Taken(actions);
    actions := Marking(actions);
    actions := Answering(actions);
    actions := Recording(actions);
  }

  /** A purge that has struck the order off. */
  lemma Purging(before: seq<Action>) returns (actions: seq<Action>)
    requires Shows(before, RECORDED, Up([ORDER], 1, Idle), Listed(ORDER), Recorded(POOL))
    ensures before <= actions
    ensures Shows(actions, ANSWERED, Up([ORDER], 1, DropRequest(SECOND, ORDER)), Listed(ORDER), Struck)
  {
    actions := Scanning(before);
    actions := Picking(actions);
    actions := Striking(actions);
  }

  /** There is a run after which a completed boot leaves an order that is timestamped and on
      the internal list but in no queue, no hand and no processed list. */
  lemma ShieldedOrderExists() returns (actions: seq<Action>)
    ensures After(SMALL, actions).Some?
    ensures var s := After(SMALL, actions).value;
            && s.listener == Up([ORDER], 1, Idle) && ORDER in s.kv.stamps
            && IsAt(s, ORDER, AtListener) && Leftover(s, ORDER)
            && s.kv.scheduled == map[] && s.kv.processed == map[]
  {
    actions := Processed();
    actions := Purging(actions);
    actions := Rebooting(actions, ANSWERED, DropRequest(SECOND, ORDER), Struck);
    PhasesTrackLog(SMALL, actions);
  }

  // ----- an answer taken back ----------------------------------------------------------------------

  lemma AskedBefore(before: seq<Action>) returns (actions: seq<Action>)
    requires Shows(before, RECORDED, Up([ORDER], 1, Idle), Listed(ORDER), Recorded(POOL))
    ensures before <= actions
    ensures Shows(actions, RECORDED, Up([ORDER], 1, Idle), Listed(ORDER), Recorded(POOL))
    ensures Said(actions, |After(SMALL, before).value.log|, Answered)
  {
    actions := Then(before, Receive(AskResult(ORDER)));
    actions := Then(actions, StepJob([], true));
  }

  lemma AskedAfter(before: seq<Action>) returns (actions: seq<Action>)
    requires Shows(before, ERASED, Up([ORDER], 1, Idle), Listed(ORDER), Erased)
    ensures before <= actions
    ensures Shows(actions, ERASED, Up([ORDER], 1, Idle), Listed(ORDER), Erased)
    ensures Said(actions, |After(SMALL, before).value.log|, Pending)
  {
    actions := Then(before, Receive(AskResult(ORDER)));
    actions := Then(actions, StepJob([], true));
    actions := Then(actions, StepJob([], true));
  }

  ghost predicate Said(actions: seq<Action>, i: nat, answer: Answer) {
    && After(SMALL, actions).Some? && i < |After(SMALL, actions).value.log|
    && After(SMALL, actions).value.log[i] == Report(ORDER, answer)
  }

  lemma SaidStays(actions: seq<Action>, longer: seq<Action>, i: nat, answer: Answer)
    requires Said(actions, i, answer) && actions <= longer && After(SMALL, longer).Some?
    ensures Said(longer, i, answer) && |After(SMALL, actions).value.log| <= |After(SMALL, longer).value.log|
  {
    assert longer[..|actions|] == actions;
    RunInTwo(SMALL, Initial(), longer, |actions|);
    LogOnlyGrows(SMALL, After(SMALL, actions).value, longer[|actions|..]);
  }

  /** There is a run in which a client gets the answer, a purge erases it and crashes, and the client
      is then told that the result is pending, with nothing left to compute it. */
  lemma AnswerTakenBack() returns (actions: seq<Action>, i: nat, j: nat)
    ensures i < j && Said(actions, i, Answered) && Said(actions, j, Pending)
    ensures var s := After(SMALL, actions).value;
            && PhaseOf(s.log, ORDER) == Erased && Leftover(s, ORDER)
            && s.kv.scheduled == map[] && ORDER !in s.kv.requests
  {
    var first := Processed();
    i := |After(SMALL, first).value.log|;
    var told := AskedBefore(first);
    var purged := Purging(told);
    purged := Unrequesting(purged);
    purged := Erasing(purged);
    purged := Rebooting(purged, ERASED, DropReceipt(SECOND, ORDER), Erased);
    SaidStays(told, purged, i, Answered);
    j := |After(SMALL, purged).value.log|;
    actions := AskedAfter(purged);
    SaidStays(told, actions, i, Answered);
    PhasesTrackLog(SMALL, actions);
  }
}
