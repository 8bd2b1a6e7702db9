/** Threads running CSV calls on one table under `csv_update_lock`.

A call takes the lock, reads the stored size, reads the value, writes, and
releases; other threads move between any two of these steps.  Plain put and
delete do not take the lock.  The log records when a call is made, when it takes
effect and when it returns, and every plain write.
*/
module CsvThreads {
  import opened Options
  import opened CsvCodec
  import opened CsvOps
  import opened CsvStore

  type Tid = nat

  datatype Call = Call(key: Bytes, op: Op)

  datatype Pc =
    | Idle
    | Waiting(call: Call)
    | Locked(call: Call)
    | Sized(call: Call, size: nat)
    | Writing(call: Call, result: Outcome)
    | Finished(call: Call, status: Status, out: Option<Bytes>)

  datatype Event =
    | Invoke(t: Tid, call: Call)
    | Commit(t: Tid, call: Call, status: Status, out: Option<Bytes>)
    | Return(t: Tid, call: Call, status: Status, out: Option<Bytes>)
    | Plain(key: Bytes, value: Option<Bytes>)

  datatype State = State(rows: map<Bytes, Bytes>, lock: Option<Tid>, pcs: map<Tid, Pc>, log: seq<Event>)

  datatype Step =
    | Start(t: Tid, call: Call)
    | Acquire(t: Tid)
    | ReadSize(t: Tid)
    | ReadValue(t: Tid)
    | Write(t: Tid)
    | Release(t: Tid)
    | PlainPut(key: Bytes, value: Bytes)
    | PlainDel(key: Bytes)

  function PcOf(s: State, t: Tid): Pc {
    if t in s.pcs then s.pcs[t] else Idle
  }

  function StoredAt(rows: map<Bytes, Bytes>, key: Bytes): Option<Bytes> {
    if key in rows then Some(rows[key]) else None
  }

  predicate Enabled(s: State, step: Step) {
    match step
    case Start(t, call) => PcOf(s, t).Idle?
    case Acquire(t) => PcOf(s, t).Waiting? && s.lock.None?
    case ReadSize(t) => PcOf(s, t).Locked?
    case ReadValue(t) => PcOf(s, t).Sized?
    case Write(t) => PcOf(s, t).Writing?
    case Release(t) => PcOf(s, t).Finished?
    case PlainPut(_, _) => true
    case PlainDel(_) => true
  }

  function Goto(s: State, t: Tid, pc: Pc): State {
    s.(pcs := s.pcs[t := pc])
  }

  /** The call has its result; nothing more will be written for it. */
  function Finish(s: State, t: Tid, call: Call, status: Status, out: Option<Bytes>): State {
    Goto(s, t, Finished(call, status, out)).(log := s.log + [Commit(t, call, status, out)])
  }

  function Apply(s: State, step: Step): State
    requires Enabled(s, step)
  {
    match step
    case Start(t, call) => Goto(s, t, Waiting(call)).(log := s.log + [Invoke(t, call)])
    case Acquire(t) => Goto(s, t, Locked(PcOf(s, t).call)).(lock := Some(t))
    case ReadSize(t) =>
      var c := PcOf(s, t).call;
      if c.key in s.rows then Goto(s, t, Sized(c, |s.rows[c.key]|))
      else if c.op.Append? || c.op.Prepend? then
        Goto(s, t, Writing(c, Outcome(Some(c.op.value), Success, None)))
      else Finish(s, t, c, ErrValue, None)
    case ReadValue(t) =>
      var c := PcOf(s, t).call;
      if c.key !in s.rows || |s.rows[c.key]| != PcOf(s, t).size then
        Finish(s, t, c, ErrValue, None)
      else
        var r := RunBytes(Some(s.rows[c.key]), c.op);
        if r.status != Success then Finish(s, t, c, r.status, r.out)
        else Goto(s, t, Writing(c, r))
    case Write(t) =>
      var c, r := PcOf(s, t).call, PcOf(s, t).result;
      var status := if r.stored.None? && c.key !in s.rows then ErrSystem else r.status;
      Finish(s, t, c, status, r.out).(rows := WithStored(s.rows, c.key, r.stored))
    case Release(t) =>
      var f := PcOf(s, t);
      Goto(s, t, Idle).(lock := None, log := s.log + [Return(t, f.call, f.status, f.out)])
    case PlainPut(key, value) => s.(rows := s.rows[key := value], log := s.log + [Plain(key, Some(value))])
    case PlainDel(key) => s.(rows := s.rows - {key}, log := s.log + [Plain(key, None)])
  }

  /** The state after a schedule, if every step of it is possible. */
  function Exec(s: State, steps: seq<Step>): Option<State> {
    if steps == [] then Some(s)
    else
      var last := |steps| - 1;
      var before := Exec(s, steps[..last]);
      if before.Some? && Enabled(before.value, steps[last])
      then Some(Apply(before.value, steps[last]))
      else None
  }

  function Initial(rows: map<Bytes, Bytes>): State {
    State(rows, None, map[], [])
  }

  predicate PlainOn(step: Step, key: Bytes) {
    (step.PlainPut? || step.PlainDel?) && step.key == key
  }

  // ----- the sequential meaning of a log ----------------------------------------

  predicate CommitsOn(e: Event, key: Bytes) {
    e.Commit? && e.call.key == key
  }

  predicate WritesOn(e: Event, key: Bytes) {
    e.Plain? && e.key == key
  }

  /** What one event leaves stored under `key`. */
  function Left(stored: Option<Bytes>, e: Event, key: Bytes): Option<Bytes> {
    if CommitsOn(e, key) then RunBytes(stored, e.call.op).stored
    else if WritesOn(e, key) then e.value
    else stored
  }

  /** What the committed calls and plain writes on `key` leave stored when run one after another. */
  function Replay(stored: Option<Bytes>, log: seq<Event>, key: Bytes): Option<Bytes> {
    if log == [] then stored else Left(Replay(stored, log[..|log| - 1], key), log[|log| - 1], key)
  }

  predicate AnswersAs(stored: Option<Bytes>, e: Event, key: Bytes) {
    CommitsOn(e, key) ==> var r := RunBytes(stored, e.call.op); e.status == r.status && e.out == r.out
  }

  /** Every committed call on `key` answered what it answers in that sequential run. */
  predicate Legal(stored: Option<Bytes>, log: seq<Event>, key: Bytes) {
    log == [] ||
    var e, before := log[|log| - 1], log[..|log| - 1];
    Legal(stored, before, key) && AnswersAs(Replay(stored, before, key), e, key)
  }

  function ListLeft(l: seq<Bytes>, e: Event, key: Bytes): seq<Bytes> {
    if CommitsOn(e, key) then RunList(l, e.call.op).list
    else if WritesOn(e, key) then Fields(e.value)
    else l
  }

  function ReplayList(l: seq<Bytes>, log: seq<Event>, key: Bytes): seq<Bytes> {
    if log == [] then l else ListLeft(ReplayList(l, log[..|log| - 1], key), log[|log| - 1], key)
  }

  predicate AnswersAsList(l: seq<Bytes>, e: Event, key: Bytes) {
    CommitsOn(e, key) ==> var r := RunList(l, e.call.op); e.status == r.status && e.out == r.out
  }

  predicate LegalList(l: seq<Bytes>, log: seq<Event>, key: Bytes) {
    log == [] ||
    var e, before := log[|log| - 1], log[..|log| - 1];
    LegalList(l, before, key) && AnswersAsList(ReplayList(l, before, key), e, key)
  }

  // ----- plain writes that do not interfere ---------------------------------------

  /** Between its ReadSize and its Write. */
  predicate InWindow(pc: Pc, key: Bytes) {
    (pc.Sized? || pc.Writing?) && pc.call.key == key
  }

  ghost predicate Clear(s: State, key: Bytes) {
    forall t: Tid :: !InWindow(PcOf(s, t), key)
  }

  /** No plain write to `key` falls between the ReadSize and the Write of a call on it. */
  ghost predicate Apart(s: State, steps: seq<Step>, key: Bytes) {
    steps != [] ==>
      var last := |steps| - 1;
      && Apart(s, steps[..last], key)
      && (PlainOn(steps[last], key) && Exec(s, steps[..last]).Some? ==> Clear(Exec(s, steps[..last]).value, key))
  }

  // ----- the invariant ------------------------------------------------------------

  predicate Holds(pc: Pc) {
    pc.Locked? || pc.Sized? || pc.Writing? || pc.Finished?
  }

  ghost predicate Exclusive(s: State) {
    forall t: Tid :: Holds(PcOf(s, t)) <==> s.lock == Some(t)
  }

  /** What a thread remembers about `key` is still what is stored there. */
  predicate Fresh(s: State, key: Bytes, pc: Pc) {
    && (pc.Sized? && pc.call.key == key ==> key in s.rows && |s.rows[key]| == pc.size)
    && (pc.Writing? && pc.call.key == key ==>
          pc.result == RunBytes(StoredAt(s.rows, key), pc.call.op) && pc.result.status == Success)
  }

  ghost predicate Inv(s: State, stored: Option<Bytes>, key: Bytes) {
    && Exclusive(s)
    && (forall t: Tid :: Fresh(s, key, PcOf(s, t)))
    && StoredAt(s.rows, key) == Replay(stored, s.log, key)
    && Legal(stored, s.log, key)
  }

  lemma Extended(stored: Option<Bytes>, log: seq<Event>, e: Event, key: Bytes)
    ensures Replay(stored, log + [e], key) == Left(Replay(stored, log, key), e, key)
    ensures Legal(stored, log + [e], key) <==>
              Legal(stored, log, key) && AnswersAs(Replay(stored, log, key), e, key)
  {
    assert (log + [e])[..|log|] == log;
  }

  /** A call that fails stores nothing, and one that deletes finds its key. */
  lemma OutcomeShape(stored: Option<Bytes>, op: Op)
    ensures var r := RunBytes(stored, op);
            && (r.status != Success ==> r.stored == stored)
            && (r.status == Success && r.stored.None? ==> stored.Some?)
  {
  }

  lemma StepKeepsExclusive(s: State, step: Step)
    requires Exclusive(s) && Enabled(s, step)
    ensures Exclusive(Apply(s, step))
  {
    var s' := Apply(s, step);
    forall u: Tid
      ensures Holds(PcOf(s', u)) <==> s'.lock == Some(u)
    {
      assert Holds(PcOf(s, u)) <==> s.lock == Some(u);
      if step.Release? || step.Acquire? {
        assert Holds(PcOf(s, step.t)) <==> s.lock == Some(step.t);
      }
    }
  }

  lemma StepKeepsFresh(s: State, step: Step, key: Bytes)
    requires Exclusive(s) && Enabled(s, step) && (PlainOn(step, key) ==> Clear(s, key))
    requires forall t: Tid :: Fresh(s, key, PcOf(s, t))
    ensures forall t: Tid :: Fresh(Apply(s, step), key, PcOf(Apply(s, step), t))
  {
    var s' := Apply(s, step);
    forall u: Tid
      ensures Fresh(s', key, PcOf(s', u))
    {
      assert Fresh(s, key, PcOf(s, u));
      assert Clear(s, key) ==> !InWindow(PcOf(s, u), key);
      if step.Write? && u != step.t {
        assert Holds(PcOf(s, step.t)) && s.lock == Some(step.t);
        assert !Holds(PcOf(s, u));
      }
    }
  }

  /** A step stores under `key` what its event says, and a call reports what it does. */
  lemma CommitIsRun(s: State, step: Step, key: Bytes)
    requires Enabled(s, step) && forall t: Tid :: Fresh(s, key, PcOf(s, t))
    ensures var s', stored := Apply(s, step), StoredAt(s.rows, key);
            if |s'.log| > |s.log| then
              var e := s'.log[|s.log|];
              StoredAt(s'.rows, key) == Left(stored, e, key) && AnswersAs(stored, e, key)
            else StoredAt(s'.rows, key) == stored
  {
    if step.ReadSize? || step.ReadValue? || step.Write? {
      var pc := PcOf(s, step.t);
      assert Fresh(s, key, pc);
      OutcomeShape(StoredAt(s.rows, key), pc.call.op);
    }
  }

  lemma StepKeepsInv(s: State, step: Step, stored: Option<Bytes>, key: Bytes)
    requires Inv(s, stored, key) && Enabled(s, step) && (PlainOn(step, key) ==> Clear(s, key))
    ensures Inv(Apply(s, step), stored, key)
  {
    var s' := Apply(s, step);
    StepKeepsExclusive(s, step);
    StepKeepsFresh(s, step, key);
    CommitIsRun(s, step, key);
    if |s'.log| > |s.log| {
      Extended(stored, s.log, s'.log[|s.log|], key);
    }
  }

  lemma {:induction false} RunKeepsInv(s: State, steps: seq<Step>, stored: Option<Bytes>, key: Bytes)
    requires Inv(s, stored, key) && Exec(s, steps).Some? && Apart(s, steps, key)
    ensures Inv(Exec(s, steps).value, stored, key)
    decreases |steps|
  {
    if steps != [] {
      var last := |steps| - 1;
      RunKeepsInv(s, steps[..last], stored, key);
      StepKeepsInv(Exec(s, steps[..last]).value, steps[last], stored, key);
    }
  }

  /** Whatever the interleaving, as long as no plain write to the key falls between the ReadSize and
      the Write of a call, the key holds what its calls and plain writes leave when run one at a time
      in the order of their effects, and each call answered what it answers in that order. */
  lemma Linearizable(rows: map<Bytes, Bytes>, steps: seq<Step>, key: Bytes)
    requires Exec(Initial(rows), steps).Some? && Apart(Initial(rows), steps, key)
    ensures var s := Exec(Initial(rows), steps).value;
            && StoredAt(s.rows, key) == Replay(StoredAt(rows, key), s.log, key)
            && Legal(StoredAt(rows, key), s.log, key)
  {
    RunKeepsInv(Initial(rows), steps, StoredAt(rows, key), key);
  }

  // ----- the same on lists ----------------------------------------------------------

  /** A call whose value is one id of length `n`. */
  predicate IdOp(op: Op, n: nat) {
    op.Pop? || (CommaFree(op.value) && |op.value| == n)
  }

  predicate NoSearch(log: seq<Event>, key: Bytes) {
    forall i :: 0 <= i < |log| && CommitsOn(log[i], key) ==> !log[i].call.op.SearchDelete?
  }

  /** The list and all values given to calls and plain writes on `key` are ids of one positive length. */
  predicate OnlyIds(l: seq<Bytes>, log: seq<Event>, key: Bytes, n: nat) {
    && n > 0 && Uniform(l, n)
    && (forall i :: 0 <= i < |log| && CommitsOn(log[i], key) ==> IdOp(log[i].call.op, n))
    && (forall i :: 0 <= i < |log| && WritesOn(log[i], key) ==> Uniform(Fields(log[i].value), n))
  }

  lemma OpKeepsUniform(stored: Option<Bytes>, op: Op, n: nat)
    requires n > 0 && Uniform(Fields(stored), n) && IdOp(op, n)
    ensures Agrees(stored, op) && Uniform(Fields(RunBytes(stored, op).stored), n)
  {
    if op.SearchDelete? {
      SearchDeleteRefinement(stored, op.value);
    } else {
      DequeRefinement(stored, op);
      if !op.Pop? {
        SplitCommaFree(op.value);
      }
    }
  }

  predicate EventAgrees(stored: Option<Bytes>, e: Event, key: Bytes) {
    CommitsOn(e, key) ==> Agrees(stored, e.call.op)
  }

  lemma EventOnLists(stored: Option<Bytes>, e: Event, key: Bytes)
    requires EventAgrees(stored, e, key)
    ensures Fields(Left(stored, e, key)) == ListLeft(Fields(stored), e, key)
    ensures AnswersAs(stored, e, key) ==> AnswersAsList(Fields(stored), e, key)
  {
  }

  lemma IdEvent(stored: Option<Bytes>, e: Event, key: Bytes, n: nat)
    requires n > 0 && Uniform(Fields(stored), n)
    requires (CommitsOn(e, key) ==> IdOp(e.call.op, n)) && (WritesOn(e, key) ==> Uniform(Fields(e.value), n))
    ensures EventAgrees(stored, e, key) && Uniform(Fields(Left(stored, e, key)), n)
  {
    if CommitsOn(e, key) {
      OpKeepsUniform(stored, e.call.op, n);
    }
  }

  lemma NoSearchEvent(stored: Option<Bytes>, e: Event, key: Bytes)
    requires CommitsOn(e, key) ==> !e.call.op.SearchDelete?
    ensures EventAgrees(stored, e, key)
  {
    if CommitsOn(e, key) {
      DequeRefinement(stored, e.call.op);
    }
  }

  lemma {:induction false} IdsStay(stored: Option<Bytes>, log: seq<Event>, key: Bytes, n: nat)
    requires OnlyIds(Fields(stored), log, key, n)
    ensures Uniform(Fields(Replay(stored, log, key)), n)
    decreases |log|
  {
    if log != [] {
      IdsStay(stored, log[..|log| - 1], key, n);
      IdEvent(Replay(stored, log[..|log| - 1], key), log[|log| - 1], key, n);
    }
  }

  lemma {:induction false} ReplayAgrees(stored: Option<Bytes>, log: seq<Event>, key: Bytes, n: nat)
    requires NoSearch(log, key) || OnlyIds(Fields(stored), log, key, n)
    requires Legal(stored, log, key)
    ensures Fields(Replay(stored, log, key)) == ReplayList(Fields(stored), log, key)
    ensures LegalList(Fields(stored), log, key)
    decreases |log|
  {
    if log != [] {
      var before, e := log[..|log| - 1], log[|log| - 1];
      assert NoSearch(log, key) ==> NoSearch(before, key);
      ReplayAgrees(stored, before, key, n);
      var mid := Replay(stored, before, key);
      if NoSearch(log, key) {
        NoSearchEvent(mid, e, key);
      } else {
        IdsStay(stored, before, key, n);
        IdEvent(mid, e, key, n);
      }
      EventOnLists(mid, e, key);
    }
  }

  /** On ids of one length, interleaved CSV calls are deque operations run one at a
      time: no append, pop or deletion is lost. */
  lemma LinearizableLists(rows: map<Bytes, Bytes>, steps: seq<Step>, key: Bytes, n: nat)
    requires Exec(Initial(rows), steps).Some? && Apart(Initial(rows), steps, key)
    requires var log := Exec(Initial(rows), steps).value.log;
             NoSearch(log, key) || OnlyIds(Fields(StoredAt(rows, key)), log, key, n)
    ensures var s, l := Exec(Initial(rows), steps).value, Fields(StoredAt(rows, key));
            && Fields(StoredAt(s.rows, key)) == ReplayList(l, s.log, key)
            && LegalList(l, s.log, key)
  {
    Linearizable(rows, steps, key);
    ReplayAgrees(StoredAt(rows, key), Exec(Initial(rows), steps).value.log, key, n);
  }

  // ----- effects lie between call and return ------------------------------------------

  datatype Stage = Ready | Invoked(call: Call) | Committed(call: Call, status: Status, out: Option<Bytes>) | Broken

  predicate Of(e: Event, t: Tid) {
    !e.Plain? && e.t == t
  }

  function NextStage(before: Stage, e: Event, t: Tid): Stage {
    if !Of(e, t) then before
    else match e
      case Invoke(_, c) => if before.Ready? then Invoked(c) else Broken
      case Commit(_, c, st, out) => if before == Invoked(c) then Committed(c, st, out) else Broken
      case Return(_, c, st, out) => if before == Committed(c, st, out) then Ready else Broken
      case Plain(_, _) => before
  }

  /** Where thread `t` stands after the events of a log: call, effect, return, in turn. */
  function StageOf(log: seq<Event>, t: Tid): Stage {
    if log == [] then Ready else NextStage(StageOf(log[..|log| - 1], t), log[|log| - 1], t)
  }

  lemma StageSnoc(log: seq<Event>, e: Event, t: Tid)
    ensures StageOf(log + [e], t) == NextStage(StageOf(log, t), e, t)
  {
    assert (log + [e])[..|log|] == log;
  }

  predicate StageMatches(s: State, t: Tid) {
    var pc, stage := PcOf(s, t), StageOf(s.log, t);
    match pc
    case Idle => stage == Ready
    case Finished(c, st, out) => stage == Committed(c, st, out)
    case _ => stage == Invoked(pc.call)
  }

  /** A call that gets its result. */
  lemma CommitKeepsStage(s: State, s': State, u: Tid, c: Call, status: Status, out: Option<Bytes>, t: Tid)
    requires StageMatches(s, u) && StageMatches(s, t)
    requires PcOf(s, u).Locked? || PcOf(s, u).Sized? || PcOf(s, u).Writing?
    requires c == PcOf(s, u).call && s' == Finish(s, u, c, status, out).(rows := s'.rows)
    ensures StageMatches(s', t)
  {
    StageSnoc(s.log, Commit(u, c, status, out), t);
  }

  /** A read or write of the thread that holds the lock. */
  lemma LockedKeepsStage(s: State, step: Step, t: Tid)
    requires step.ReadSize? || step.ReadValue? || step.Write?
    requires Enabled(s, step) && StageMatches(s, t) && StageMatches(s, step.t)
    ensures StageMatches(Apply(s, step), t)
  {
    var s' := Apply(s, step);
    var f := PcOf(s', step.t);
    assert f.Finished? || s'.log == s.log;
    if f.Finished? {
      CommitKeepsStage(s, s', step.t, f.call, f.status, f.out, t);
    }
  }

  lemma StepKeepsStage(s: State, step: Step, t: Tid)
    requires Enabled(s, step) && StageMatches(s, t)
    requires !step.PlainPut? && !step.PlainDel? ==> StageMatches(s, step.t)
    ensures StageMatches(Apply(s, step), t)
  {
    var s' := Apply(s, step);
    match step
    case Start(u, call) => StageSnoc(s.log, Invoke(u, call), t);
    case Acquire(_) => assert s'.log == s.log;
    case PlainPut(key, value) => StageSnoc(s.log, Plain(key, Some(value)), t);
    case PlainDel(key) => StageSnoc(s.log, Plain(key, None), t);
    case Release(u) =>
      var f := PcOf(s, u);
      StageSnoc(s.log, Return(u, f.call, f.status, f.out), t);
    case _ => LockedKeepsStage(s, step, t);
  }

  lemma StepKeepsStages(s: State, step: Step)
    requires Enabled(s, step) && forall t :: StageMatches(s, t)
    ensures forall t :: StageMatches(Apply(s, step), t)
  {
    forall t ensures StageMatches(Apply(s, step), t) {
      assert StageMatches(s, t);
      assert !step.PlainPut? && !step.PlainDel? ==> StageMatches(s, step.t);
      StepKeepsStage(s, step, t);
    }
  }

  lemma {:induction false} StagesHold(rows: map<Bytes, Bytes>, steps: seq<Step>)
    requires Exec(Initial(rows), steps).Some?
    ensures forall u :: StageMatches(Exec(Initial(rows), steps).value, u)
    decreases |steps|
  {
    if steps != [] {
      var last := |steps| - 1;
      StagesHold(rows, steps[..last]);
      StepKeepsStages(Exec(Initial(rows), steps[..last]).value, steps[last]);
    }
  }

  /** No event of `t` lies strictly between positions `i` and `j`. */
  predicate QuietBetween(log: seq<Event>, t: Tid, i: nat, j: nat) {
    forall k :: i < k < j < |log| ==> !Of(log[k], t)
  }

  /** The last event of a thread that is not `Ready` is the one that brought it where it is. */
  lemma {:induction false} LastEvent(log: seq<Event>, t: Tid) returns (i: nat)
    requires StageOf(log, t).Invoked? || StageOf(log, t).Committed?
    ensures i < |log| && Of(log[i], t) && log[i].call == StageOf(log, t).call
    ensures forall k :: i < k < |log| ==> !Of(log[k], t)
    ensures StageOf(log, t).Invoked? ==> log[i].Invoke?
    ensures StageOf(log, t).Committed? ==>
              log[i] == Commit(t, log[i].call, StageOf(log, t).status, StageOf(log, t).out)
    decreases |log|
  {
    var last := |log| - 1;
    if Of(log[last], t) {
      i := last;
    } else {
      i := LastEvent(log[..last], t);
    }
  }

  lemma {:induction false} NotBrokenBefore(log: seq<Event>, t: Tid, i: nat)
    requires StageOf(log, t) != Broken && i <= |log|
    ensures StageOf(log[..i], t) != Broken
    decreases |log|
  {
    if i < |log| {
      assert log[..|log| - 1][..i] == log[..i];
      NotBrokenBefore(log[..|log| - 1], t, i);
    } else {
      assert log[..i] == log;
    }
  }

  predicate EffectAt(log: seq<Event>, i: nat, c: nat, r: nat) {
    && i < c < r < |log| && log[r].Return?
    && log[i] == Invoke(log[r].t, log[r].call)
    && log[c] == Commit(log[r].t, log[r].call, log[r].status, log[r].out)
    && QuietBetween(log, log[r].t, i, c) && QuietBetween(log, log[r].t, c, r)
  }

  lemma LastBefore(log: seq<Event>, t: Tid, r: nat) returns (c: nat)
    requires r < |log| && Of(log[r], t) && StageOf(log, t) != Broken
    requires log[r].Return? || log[r].Commit?
    ensures c < r && Of(log[c], t) && log[c].call == log[r].call && QuietBetween(log, t, c, r)
    ensures log[r].Return? ==> log[c] == Commit(t, log[r].call, log[r].status, log[r].out)
    ensures log[r].Commit? ==> log[c].Invoke?
  {
    NotBrokenBefore(log, t, r + 1);
    assert log[..r + 1][..r] == log[..r];
    c := LastEvent(log[..r], t);
    assert forall k :: c < k < r ==> log[..r][k] == log[k];
  }

  /** Each call takes effect after it is made and before it returns, and returns what
      its effect produced. */
  lemma EffectBetweenCallAndReturn(rows: map<Bytes, Bytes>, steps: seq<Step>, r: nat)
      returns (i: nat, c: nat)
    requires Exec(Initial(rows), steps).Some?
    requires r < |Exec(Initial(rows), steps).value.log|
    requires Exec(Initial(rows), steps).value.log[r].Return?
    ensures EffectAt(Exec(Initial(rows), steps).value.log, i, c, r)
  {
    var s := Exec(Initial(rows), steps).value;
    var t := s.log[r].t;
    StagesHold(rows, steps);
    assert StageMatches(s, t);
    c := LastBefore(s.log, t, r);
    i := LastBefore(s.log, t, c);
  }

  /** A plain put of `c` between the read and the write of an append of `b` to `a` leaves what neither
      order of the two leaves, unless `c` is what was there or what the append makes of it. */
  lemma PlainPutIsLost(key: Bytes, a: Bytes, b: Bytes, c: Bytes)
    ensures var steps := [Start(0, Call(key, Append(b))), Acquire(0), ReadSize(0), ReadValue(0),
                          PlainPut(key, c), Write(0)];
            var end := Exec(Initial(map[key := a]), steps);
            var putFirst, putLast := RunBytes(Some(c), Append(b)).stored, Some(c);
            && end.Some? && StoredAt(end.value.rows, key) == Some(a + [COMMA] + b)
            && (StoredAt(end.value.rows, key) !in {putFirst, putLast} <==> c != a && c != a + [COMMA] + b)
  {
    assert (a + [COMMA] + b == c + [COMMA] + b) ==> |a| == |c| && (a + [COMMA] + b)[..|a|] == (c + [COMMA] + b)[..|c|];
    assert (a + [COMMA] + b)[..|a|] == a && (c + [COMMA] + b)[..|c|] == c;
    var s0 := Initial(map[key := a]);
    var steps := [Start(0, Call(key, Append(b))), Acquire(0), ReadSize(0), ReadValue(0),
                  PlainPut(key, c), Write(0)];
    assert Exec(s0, steps[..0]) == Some(s0);
    assert steps[..1][..0] == steps[..0];
    assert steps[..2][..1] == steps[..1];
    assert steps[..3][..2] == steps[..2];
    assert steps[..4][..3] == steps[..3];
    assert steps[..5][..4] == steps[..4];
    assert steps[..6] == steps;
    var s1 := Apply(s0, steps[0]);
    assert Exec(s0, steps[..1]) == Some(s1);
    var s2 := Apply(s1, steps[1]);
    assert Exec(s0, steps[..2]) == Some(s2);
    var s3 := Apply(s2, steps[2]);
    assert Exec(s0, steps[..3]) == Some(s3);
    var s4 := Apply(s3, steps[3]);
    assert Exec(s0, steps[..4]) == Some(s4);
    var s5 := Apply(s4, steps[4]);
    assert Exec(s0, steps[..5]) == Some(s5);
  }
}
