/** The step machine, run without interference, does what the handler's code does. */
module HandlerRuns {
  import opened WorkOrders
  import opened Recovery
  import opened Handler

  /** Steps a listener job still has to take at most. */
  function Steps(job: Job): nat {
    match job
    case Idle => 0
    case Scan(_, todo, _) => 11 + |todo|
    case ReadStamps(_, _) => 10
    case StrikeOff(_, _, _) => 9
    case DropRequest(_, _) => 8
    case DropResponse(_, _) => 7
    case DropReceipt(_, _) => 6
    case DropStamp(_, _) => 5
    case CheckStamp(_) => 4
    case PutStamp(_) => 3
    case PutRequest(_) => 2
    case Append(_) => 1
    case AskResponse(_) => 2
    case AskStamp(_) => 1
    case FindRequest(_) => 3
    case FindReceipt(_) => 2
    case PutReceipt(_) => 1
  }

  lemma PurgeStepsDown(c: Config, s: State, order: seq<Id>)
    requires s.listener.Up? && InPurge(s.listener.job)
    ensures var s' := PurgeStep(c, s, order);
            s'.listener.Up? && Steps(s'.listener.job) < Steps(s.listener.job)
  {
  }

  lemma SubmitStepsDown(s: State)
    requires s.listener.Up? && InSubmit(s.listener.job)
    ensures SubmitStep(s).listener.Up? && Steps(SubmitStep(s).listener.job) < Steps(s.listener.job)
  {
  }

  lemma StepsDown(c: Config, s: State, order: seq<Id>, ok: bool)
    requires s.listener.Up? && !s.listener.job.Idle?
    ensures var s' := JobStep(c, s, order, ok);
            s'.listener.Up? && Steps(s'.listener.job) < Steps(s.listener.job)
  {
    if InPurge(s.listener.job) {
      PurgeStepsDown(c, s, order);
    } else if InSubmit(s.listener.job) {
      SubmitStepsDown(s);
    }
  }

  /** The listener finishing its job with nobody else moving. */
  function Finish(c: Config, s: State, order: seq<Id>, ok: bool): State
    requires s.listener.Up?
    decreases Steps(s.listener.job)
  {
    if s.listener.job.Idle? then s
    else
      StepsDown(c, s, order, ok);
      Finish(c, JobStep(c, s, order, ok), order, ok)
  }

  function MemOf(s: State): Memory
    requires s.listener.Up?
  {
    Memory(s.kv, s.listener.list, s.listener.count)
  }

  lemma FinishStep(c: Config, s: State, order: seq<Id>, ok: bool)
    requires s.listener.Up? && !s.listener.job.Idle?
    ensures JobStep(c, s, order, ok).listener.Up?
    ensures Finish(c, s, order, ok) == Finish(c, JobStep(c, s, order, ok), order, ok)
  {
    StepsDown(c, s, order, ok);
  }

  /** The reply that goes with the last event of a submit. */
  function ReplyFor(e: Event): Reply {
    match e
    case Busy(_) => BusyReply
    case Refuse(_) => ExistsReply
    case Enqueue(_, _) => PendingReply
    case _ => ExceptionReply
  }

  /** Running on ends with this memory and this reply. */
  predicate Ends(c: Config, s: State, order: seq<Id>, ok: bool, end: (Memory, Reply))
    requires s.listener.Up?
  {
    var e := Finish(c, s, order, ok);
    && e.listener.Up? && e.listener.job.Idle? && e.log != []
    && (MemOf(e), ReplyFor(e.log[|e.log| - 1])) == end
  }

  function AcceptOrRefuse(m: Memory, sub: Submit): (Memory, Reply) {
    if sub.id in m.kv.stamps then (m, ExistsReply)
    else (Memory(SubmitKv(m.kv, sub, 3), m.list + [sub.id], m.count + 1), PendingReply)
  }

  lemma StepEnds(c: Config, s: State, order: seq<Id>, ok: bool, s': State, end: (Memory, Reply))
    requires s.listener.Up? && !s.listener.job.Idle? && s' == JobStep(c, s, order, ok)
    requires s'.listener.Up? && Ends(c, s', order, ok, end)
    ensures Ends(c, s, order, ok, end)
  {
    FinishStep(c, s, order, ok);
  }

  lemma LastStepEnds(c: Config, s: State, order: seq<Id>, ok: bool, e: Event, s': State)
    requires s.listener.Up? && !s.listener.job.Idle? && JobStep(c, s, order, ok) == Emit(s', e)
    requires s'.listener.Up? && s'.listener.job.Idle?
    ensures Ends(c, s, order, ok, (MemOf(s'), ReplyFor(e)))
  {
    var t := Emit(s', e);
    assert t.log[|t.log| - 1] == e && MemOf(t) == MemOf(s');
    assert Finish(c, t, order, ok) == t;
    StepEnds(c, s, order, ok, t, (MemOf(s'), ReplyFor(e)));
  }

  lemma AppendEnds(c: Config, s: State, order: seq<Id>, ok: bool)
    requires s.listener.Up? && s.listener.job.PutRequest?
    ensures var sub, kv := s.listener.job.sub, s.kv;
            Ends(c, s, order, ok,
                 (Memory(kv.(requests := kv.requests[sub.id := sub.request],
                             scheduled := SetRow(kv.scheduled, sub.w, Row(kv.scheduled, sub.w) + [sub.id])),
                         s.listener.list + [sub.id], s.listener.count + 1), PendingReply))
  {
    var sub, l, kv := s.listener.job.sub, s.listener, s.kv;
    var kv1 := kv.(requests := kv.requests[sub.id := sub.request]);
    var s1 := Goto(s, Append(sub)).(kv := kv1);
    var kv2 := kv1.(scheduled := SetRow(kv1.scheduled, sub.w, Row(kv1.scheduled, sub.w) + [sub.id]));
    var s2 := s1.(kv := kv2, listener := Up(l.list + [sub.id], l.count + 1, Idle));
    LastStepEnds(c, s1, order, ok, Enqueue(sub.id, sub.w), s2);
    StepEnds(c, s, order, ok, s1, (MemOf(s2), PendingReply));
  }

  lemma StampEnds(c: Config, s: State, order: seq<Id>, ok: bool)
    requires s.listener.Up? && s.listener.job.PutStamp?
    ensures var sub, l := s.listener.job.sub, s.listener;
            Ends(c, s, order, ok, (Memory(SubmitKv(s.kv, sub, 3), l.list + [sub.id], l.count + 1), PendingReply))
  {
    var sub, l := s.listener.job.sub, s.listener;
    var s1 := Emit(Goto(s, PutRequest(sub)).(kv := s.kv.(stamps := s.kv.stamps + {sub.id})), Accept(sub.id));
    AppendEnds(c, s1, order, ok);
    StepEnds(c, s, order, ok, s1, (Memory(SubmitKv(s.kv, sub, 3), l.list + [sub.id], l.count + 1), PendingReply));
  }

  lemma CheckEnds(c: Config, s: State, order: seq<Id>, ok: bool)
    requires s.listener.Up? && s.listener.job.CheckStamp?
    ensures Ends(c, s, order, ok, AcceptOrRefuse(MemOf(s), s.listener.job.sub))
  {
    var sub := s.listener.job.sub;
    if sub.id in s.kv.stamps {
      LastStepEnds(c, s, order, ok, Refuse(sub.id), Goto(s, Idle));
    } else {
      StampEnds(c, Goto(s, PutStamp(sub)), order, ok);
      StepEnds(c, s, order, ok, Goto(s, PutStamp(sub)), AcceptOrRefuse(MemOf(s), sub));
    }
  }

  /** What follows a purge that has removed `id` from the tables in `m`. */
  function AfterDrop(c: Config, m: Memory, sub: Submit, id: Id): (Memory, Reply) {
    if id !in m.list then (m, ExceptionReply)
    else
      var shorter := Memory(m.kv, Without(m.list, id), m.count - 1);
      if m.count > c.max then (shorter, BusyReply) else AcceptOrRefuse(shorter, sub)
  }

  lemma DropStampEnds(c: Config, s: State, order: seq<Id>, ok: bool)
    requires s.listener.Up? && s.listener.job.DropStamp?
    ensures var id, m := s.listener.job.victim, MemOf(s);
            Ends(c, s, order, ok,
                 AfterDrop(c, m.(kv := m.kv.(stamps := m.kv.stamps - {id})), s.listener.job.sub, id))
  {
    var id, sub, l := s.listener.job.victim, s.listener.job.sub, s.listener;
    var dropped := s.(kv := s.kv.(stamps := s.kv.stamps - {id}));
    if id !in l.list {
      LastStepEnds(c, s, order, ok, Remove(id), Goto(dropped, Idle));
    } else {
      var shorter := Emit(dropped, Remove(id)).(listener := Up(Without(l.list, id), l.count - 1, CheckStamp(sub)));
      if l.count > c.max {
        LastStepEnds(c, s, order, ok, Busy(sub.id), Goto(shorter, Idle));
      } else {
        CheckEnds(c, shorter, order, ok);
        StepEnds(c, s, order, ok, shorter, AcceptOrRefuse(MemOf(shorter), sub));
      }
    }
  }

  lemma DropRowsEnd(c: Config, s: State, order: seq<Id>, ok: bool)
    requires s.listener.Up? && s.listener.job.DropRequest?
    ensures var id, m := s.listener.job.victim, MemOf(s);
            Ends(c, s, order, ok, AfterDrop(c, m.(kv := Dropped(m.kv, {id})), s.listener.job.sub, id))
  {
    FinishStep(c, s, order, ok);
    var s1 := JobStep(c, s, order, ok);
    FinishStep(c, s1, order, ok);
    var s2 := JobStep(c, s1, order, ok);
    FinishStep(c, s2, order, ok);
    DropStampEnds(c, JobStep(c, s2, order, ok), order, ok);
  }

  lemma StrikeEnds(c: Config, s: State, order: seq<Id>, ok: bool)
    requires s.listener.Up? && s.listener.job.StrikeOff?
    ensures var job, m := s.listener.job, MemOf(s);
            Ends(c, s, order, ok,
                 AfterDrop(c, m.(kv := PurgeKv(m.kv, job.victim, job.owner, 5)), job.sub, job.victim))
  {
    FinishStep(c, s, order, ok);
    DropRowsEnd(c, JobStep(c, s, order, ok), order, ok);
  }

  lemma PurgedThenSubmitted(c: Config, m: Memory, sub: Submit, order: seq<Id>)
    requires m.count + 1 > c.max
    ensures var found := ProcessedBy(m.kv, c.workers);
            var pick := FirstAmong(order, found.Keys);
            pick.Some? ==>
              AfterDrop(c, m.(kv := PurgeKv(m.kv, pick.value, found[pick.value], 5)), sub, pick.value)
              == Submitted(c, m, sub, order)
  {
  }

  lemma PickEnds(c: Config, s: State, order: seq<Id>, ok: bool)
    requires s.listener.Up? && s.listener.job.ReadStamps? && s.listener.count + 1 > c.max
    requires s.listener.job.found == ProcessedBy(s.kv, c.workers)
    ensures Ends(c, s, order, ok, Submitted(c, MemOf(s), s.listener.job.sub, order))
  {
    var job, pick := s.listener.job, FirstAmong(order, s.listener.job.found.Keys);
    FinishStep(c, s, order, ok);
    if pick.Some? {
      StrikeEnds(c, Goto(s, StrikeOff(job.sub, pick.value, job.found[pick.value])), order, ok);
      PurgedThenSubmitted(c, MemOf(s), job.sub, order);
    }
  }

  lemma ScanOne(c: Config, s: State, order: seq<Id>, ok: bool, done: seq<Worker>)
    requires s.listener.Up? && s.listener.job.Scan? && s.listener.job.todo != []
    requires s.listener.job.found == ProcessedBy(s.kv, done)
    ensures var job := s.listener.job;
            JobStep(c, s, order, ok) == Goto(s, Scan(job.sub, job.todo[1..], ProcessedBy(s.kv, done + [job.todo[0]])))
  {
    var w := s.listener.job.todo[0];
    assert (done + [w])[..|done|] == done;
  }

  /** Scanning the remaining workers completes the table of processed ids. */
  lemma {:induction false} ScanEnds(c: Config, s: State, order: seq<Id>, ok: bool, done: seq<Worker>)
    requires s.listener.Up? && s.listener.job.Scan? && c.workers == done + s.listener.job.todo
    requires s.listener.job.found == ProcessedBy(s.kv, done) && s.listener.count + 1 > c.max
    ensures Ends(c, s, order, ok, Submitted(c, MemOf(s), s.listener.job.sub, order))
    decreases |s.listener.job.todo|
  {
    var job := s.listener.job;
    FinishStep(c, s, order, ok);
    if job.todo == [] {
      assert done == c.workers;
      PickEnds(c, Goto(s, ReadStamps(job.sub, job.found)), order, ok);
    } else {
      var w := job.todo[0];
      ScanOne(c, s, order, ok, done);
      assert done + job.todo == done + [w] + job.todo[1..];
      ScanEnds(c, Goto(s, Scan(job.sub, job.todo[1..], ProcessedBy(s.kv, done + [w]))), order, ok, done + [w]);
    }
  }

  /** An uninterrupted submit of the step machine leaves the tables and the listener's
      memory, and ends with the reply, exactly as `WorkOrderHandler.WorkOrderSubmit` does. */
  lemma SubmitRunsAsHandler(c: Config, s: State, sub: Submit, order: seq<Id>, ok: bool)
    requires s.listener.Up? && s.listener.job.Idle?
    ensures var s1 := Begin(c, s, AskSubmit(sub));
            s1.listener.Up? && Ends(c, s1, order, ok, Submitted(c, MemOf(s), sub, order))
  {
    var s1 := Begin(c, s, AskSubmit(sub));
    assert MemOf(s1) == MemOf(s);
    if s.listener.count + 1 > c.max {
      assert c.workers == [] + c.workers;
      ScanEnds(c, s1, order, ok, []);
    } else {
      CheckEnds(c, s1, order, ok);
      RoomLeft(c, MemOf(s), sub, order);
    }
  }

  lemma RoomLeft(c: Config, m: Memory, sub: Submit, order: seq<Id>)
    requires m.count + 1 <= c.max
    ensures Submitted(c, m, sub, order) == AcceptOrRefuse(m, sub)
  {
  }
}
