/** The listener's bookkeeping of how many work orders it holds.

Nothing is asked of the other processes here except that they never write a
timestamp: processors do not, and neither does the cleanup a restarting manager
runs, which deletes rows the listener still counts.
*/
module Capacity {
  import opened Options
  import opened WorkOrders
  import opened Lifecycle
  import R = Recovery

  /** The listener's own moves while it is up, and anything others do to the tables. */
  datatype Move = Own(a: Action) | Others(kv: Kv)

  predicate CanMove(c: Config, s: State, m: Move) {
    match m
    case Own(a) => (a.Receive? || a.StepJob?) && Enabled(c, s, a)
    case Others(kv) => kv.stamps <= s.kv.stamps
  }

  function AfterMove(c: Config, s: State, m: Move): State
    requires CanMove(c, s, m)
  {
    match m
    case Own(a) => Apply(c, s, a)
    case Others(kv) => s.(kv := kv)
  }

  function Moved(c: Config, s: State, moves: seq<Move>): Option<State> {
    if moves == [] then Some(s)
    else
      var last := |moves| - 1;
      var before := Moved(c, s, moves[..last]);
      if before.Some? && CanMove(c, before.value, moves[last])
      then Some(AfterMove(c, before.value, moves[last]))
      else None
  }

  predicate AllIn(ids: set<Id>, l: seq<Id>) {
    forall id :: id in ids ==> id in l
  }

  /** The id of a submit whose timestamp is written but which is not yet on the list. */
  function Entering(job: Job): set<Id> {
    if job.PutRequest? || job.Append? then {job.sub.id} else {}
  }

  function Max(a: int, b: int): int {
    if a > b then a else b
  }

  predicate Purging(job: Job) {
    job.StrikeOff? || job.DropRequest? || job.DropResponse? || job.DropReceipt? || job.DropStamp?
  }

  /** `start` is the count the boot left. */
  predicate Counted(c: Config, s: State, start: int) {
    && s.listener.Up?
    && var l := s.listener;
    && l.count == |l.list|
    && AllIn(s.kv.stamps - Entering(l.job), l.list)
    && l.count <= Max(c.max, start)
    && (Purging(l.job) ==> l.job.victim in l.list)
    && (l.job.Scan? || l.job.ReadStamps? ==> l.count + 1 > c.max)
    && (l.job.CheckStamp? || l.job.PutStamp? || l.job.PutRequest? || l.job.Append? ==> l.count + 1 <= c.max)
  }

  lemma {:induction false} SizeBound(ids: set<Id>, l: seq<Id>)
    requires AllIn(ids, l)
    ensures |ids| <= |l|
    decreases |l|
  {
    if l == [] {
      assert ids == {};
    } else {
      assert l == [l[0]] + l[1..];
      SizeBound(ids - {l[0]}, l[1..]);
      assert ids <= (ids - {l[0]}) + {l[0]};
    }
  }

  lemma PurgeCounted(c: Config, s: State, start: int)
    requires Counted(c, s, start) && s.listener.job.DropStamp?
    ensures Counted(c, AfterPurge(c, s, s.listener.job.sub, s.listener.job.victim), start)
  {
    WithoutFacts(s.listener.list, s.listener.job.victim);
  }

  lemma PurgeStepCounted(c: Config, s: State, order: seq<Id>, start: int)
    requires Counted(c, s, start) && InPurge(s.listener.job)
    requires s.listener.job.ReadStamps? ==> Enumerates(order, s.kv.stamps)
    ensures Counted(c, PurgeStep(c, s, order), start)
  {
    if s.listener.job.DropStamp? {
      PurgeCounted(c, s, start);
    }
  }

  lemma SubmitStepCounted(c: Config, s: State, start: int)
    requires Counted(c, s, start) && InSubmit(s.listener.job)
    ensures Counted(c, SubmitStep(s), start)
  {
  }

  lemma QueryStepCounted(c: Config, s: State, ok: bool, start: int)
    requires Counted(c, s, start) && !InPurge(s.listener.job) && !InSubmit(s.listener.job)
    ensures Counted(c, QueryStep(s, ok), start)
  {
    var s' := QueryStep(s, ok);
    assert s'.kv.stamps == s.kv.stamps && s'.listener == s.listener.(job := s'.listener.job);
    assert Entering(s'.listener.job) == Entering(s.listener.job) == {};
  }

  lemma JobCounted(c: Config, s: State, order: seq<Id>, ok: bool, start: int)
    requires Counted(c, s, start) && (s.listener.job.ReadStamps? ==> Enumerates(order, s.kv.stamps))
    ensures Counted(c, JobStep(c, s, order, ok), start)
  {
    if InPurge(s.listener.job) {
      PurgeStepCounted(c, s, order, start);
    } else if InSubmit(s.listener.job) {
      SubmitStepCounted(c, s, start);
    } else {
      QueryStepCounted(c, s, ok, start);
    }
  }

  lemma MoveCounted(c: Config, s: State, m: Move, start: int)
    requires Counted(c, s, start) && CanMove(c, s, m)
    ensures Counted(c, AfterMove(c, s, m), start)
  {
    if m.Own? && m.a.StepJob? {
      JobCounted(c, s, m.a.order, m.a.ok, start);
    }
  }

  lemma {:induction false} RunCounted(c: Config, s: State, moves: seq<Move>, start: int)
    requires Counted(c, s, start) && Moved(c, s, moves).Some?
    ensures Counted(c, Moved(c, s, moves).value, start)
    decreases |moves|
  {
    if moves != [] {
      var last := |moves| - 1;
      RunCounted(c, s, moves[..last], start);
      MoveCounted(c, Moved(c, s, moves[..last]).value, moves[last], start);
    }
  }

  /** The state a completed boot leaves: nothing in progress, every timestamp on the list. */
  predicate JustBooted(s: State) {
    && s.listener.Up? && s.listener.job.Idle?
    && s.listener.count == |s.listener.list| && AllIn(s.kv.stamps, s.listener.list)
  }

  /** The boot that completes, however often booting was interrupted before, leaves such a state. */
  lemma BootsAreJustBooted(c: Config, s: State, actions: seq<Action>)
    requires Inv(c, s) && s.listener.Down? && Exec(c, s, actions + [StepBoot]).Some?
    requires forall i :: 0 <= i < |actions| ==> R.IsReboot(actions[i])
    requires Exec(c, s, actions + [StepBoot]).value.listener.Up?
    ensures JustBooted(Exec(c, s, actions + [StepBoot]).value)
  {
    R.RebootsConverge(c, s, actions);
  }

  /** Between requests at most `count` ids are timestamped; `count` is the length of the
      internal list and never exceeds the maximum unless the boot already did. */
  lemma CapacityKept(c: Config, s: State, moves: seq<Move>)
    requires JustBooted(s) && Moved(c, s, moves).Some?
    ensures var s' := Moved(c, s, moves).value;
            && s'.listener.Up? && s'.listener.count == |s'.listener.list|
            && s'.listener.count <= Max(c.max, s.listener.count)
            && (s'.listener.job.Idle? ==> |s'.kv.stamps| <= s'.listener.count)
  {
    var s' := Moved(c, s, moves).value;
    RunCounted(c, s, moves, s.listener.count);
    SizeBound(s'.kv.stamps - Entering(s'.listener.job), s'.listener.list);
    if s'.listener.job.Idle? {
      assert s'.kv.stamps - Entering(s'.listener.job) == s'.kv.stamps;
    }
  }

  /** A purge always finds its id on the internal list, also when rows were deleted meanwhile. */
  lemma PurgeFindsItsId(c: Config, s: State, moves: seq<Move>)
    requires JustBooted(s) && Moved(c, s, moves).Some?
    requires Moved(c, s, moves).value.listener.Up? && Purging(Moved(c, s, moves).value.listener.job)
    ensures var l := Moved(c, s, moves).value.listener;
            l.job.victim in l.list
  {
    RunCounted(c, s, moves, s.listener.count);
  }

  predicate TurnedAway(s: State, s': State) {
    |s'.log| > |s.log| && s'.log[|s'.log| - 1].Busy?
  }

  /** If the boot left the count within the maximum, a submit is turned away exactly when
      the scan found no timestamped id processed. */
  lemma BusyIffNoneProcessed(c: Config, s: State, moves: seq<Move>, order: seq<Id>, ok: bool)
    requires JustBooted(s) && s.listener.count <= c.max && Moved(c, s, moves).Some?
    requires CanMove(c, Moved(c, s, moves).value, Own(StepJob(order, ok)))
    ensures var t := Moved(c, s, moves).value;
            TurnedAway(t, JobStep(c, t, order, ok)) <==>
              t.listener.job.ReadStamps? && forall id :: id in t.kv.stamps ==> id !in t.listener.job.found
  {
    var t := Moved(c, s, moves).value;
    RunCounted(c, s, moves, s.listener.count);
    JobTurnsAway(c, t, order, ok, s.listener.count);
  }

  lemma JobTurnsAway(c: Config, t: State, order: seq<Id>, ok: bool, start: int)
    requires Counted(c, t, start) && start <= c.max && (t.listener.job.ReadStamps? ==> Enumerates(order, t.kv.stamps))
    ensures TurnedAway(t, JobStep(c, t, order, ok)) <==>
              t.listener.job.ReadStamps? && forall id :: id in t.kv.stamps ==> id !in t.listener.job.found
  {
    match t.listener.job
    case Idle =>
    case Scan(_, _, _) =>
    case ReadStamps(_, _) =>
    case StrikeOff(_, _, _) =>
    case DropRequest(_, _) =>
    case DropResponse(_, _) =>
    case DropReceipt(_, _) =>
    case DropStamp(_, _) =>
    case CheckStamp(_) =>
    case PutStamp(_) =>
    case PutRequest(_) =>
    case Append(_) =>
    case AskResponse(_) =>
    case AskStamp(_) =>
    case FindRequest(_) =>
    case FindReceipt(_) =>
    case PutReceipt(_) =>
  }

  // ----- who the others are ------------------------------------------------------------------

  /** One key-value operation of a restarting manager's cleanup. */
  datatype CleanupOp =
    | CleanResponse(id: Id) | CleanRequest(id: Id) | CleanReceipt(id: Id) | CleanStamp(id: Id)
    | CleanList(w: Worker)

  function Clean(kv: Kv, op: CleanupOp): Kv {
    match op
    case CleanResponse(id) => kv.(responses := kv.responses - {id})
    case CleanRequest(id) => kv.(requests := kv.requests - {id})
    case CleanReceipt(id) => kv.(receipts := kv.receipts - {id})
    case CleanStamp(id) => kv.(stamps := kv.stamps - {id})
    case CleanList(w) => kv.(processed := kv.processed - {w})
  }

  /** Processors and cleanup are among the others the capacity results allow. */
  lemma OthersAllowed(c: Config, s: State, p: Identity, failed: bool, op: CleanupOp)
    requires Enabled(c, s, StepProc(p, failed))
    ensures CanMove(c, s, Others(Apply(c, s, StepProc(p, failed)).kv)) && CanMove(c, s, Others(Clean(s.kv, op)))
  {
    assert ProcStep(s, p, c.home[p], failed).kv.stamps == s.kv.stamps;
  }
}
