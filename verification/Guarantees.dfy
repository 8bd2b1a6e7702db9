/** What the protocol promises over whole runs: where an id is, how often it is
executed, in which order, and what clients are told. */
module Guarantees {
  import opened Options
  import opened WorkOrders
  import opened Lifecycle

  /** The state after a run from the empty store with the listener not yet booted. */
  function After(c: Config, actions: seq<Action>): Option<State> {
    Exec(c, Initial(), actions)
  }

  lemma ReachableInv(c: Config, actions: seq<Action>)
    requires c.Valid() && After(c, actions).Some?
    ensures Inv(c, After(c, actions).value)
  {
    InitialInv(c);
    RunKeepsInv(c, Initial(), actions);
  }

  // ----- phases come from the log ---------------------------------------------------------

  ghost predicate Tracks(s: State) {
    forall id :: Ph(s, id) == PhaseOf(s.log, id)
  }

  lemma PhaseOfSnoc(log: seq<Event>, e: Event, id: Id)
    ensures PhaseOf(log + [e], id) == if e.id == id then NextPhase(PhaseOf(log, id), e) else PhaseOf(log, id)
  {
    assert (log + [e])[..|log|] == log;
  }

  /** `s'` has the history of `s` extended by the events `es`. */
  predicate Emits(s: State, s': State, es: seq<Event>) {
    match |es|
    case 0 => s'.log == s.log && s'.phase == s.phase
    case 1 => s'.log == Emit(s, es[0]).log && s'.phase == Emit(s, es[0]).phase
    case 2 => var t := Emit(Emit(s, es[0]), es[1]); s'.log == t.log && s'.phase == t.phase
    case _ => false
  }

  function ProcEvents(s: State, p: Identity, w: Worker): seq<Event>
    requires ProcOf(s, p).Resting? ==> Row(s.kv.scheduled, w) != []
  {
    match ProcOf(s, p)
    case Resting => [Take(Row(s.kv.scheduled, w)[0], p, w)]
    case Popped(id) => if id in s.kv.requests then [] else [Lost(id, p)]
    case Fetched(_, _) => []
    case Marked(id, _) => [Execute(id, p)]
    case Rejected(id, _) => [Respond(id, p)]
    case Ran(id, _, _) => [Respond(id, p)]
    case Stored(id) => [Record(id, p, w)]
    case Listed(_) => []
  }

  function JobEvents(c: Config, s: State, order: seq<Id>): seq<Event>
    requires s.listener.Up?
  {
    var l := s.listener;
    match l.job
    case ReadStamps(sub, found) => if FirstAmong(order, found.Keys).None? then [Busy(sub.id)] else []
    case StrikeOff(_, id, w) => [Strike(id, w)]
    case DropResponse(_, id) => [Erase(id)]
    case DropStamp(sub, id) => if id in l.list && l.count > c.max then [Remove(id), Busy(sub.id)] else [Remove(id)]
    case CheckStamp(sub) => if sub.id in s.kv.stamps then [Refuse(sub.id)] else []
    case PutStamp(sub) => [Accept(sub.id)]
    case Append(sub) => [Enqueue(sub.id, sub.w)]
    case AskResponse(id) => if id in s.kv.responses then [Report(id, Answered)] else []
    case AskStamp(id) => [Report(id, if id in s.kv.stamps then Pending else Unknown)]
    case _ => []
  }

  /** What an action means for the ids concerned. */
  function Events(c: Config, s: State, a: Action): seq<Event>
    requires Enabled(c, s, a)
  {
    match a
    case StepProc(p, _) => ProcEvents(s, p, c.home[p])
    case StepJob(order, _) => JobEvents(c, s, order)
    case StepBoot =>
      var b := s.listener;
      if b.todo == [] || b.todo[0] in b.keep then []
      else if b.stage == Responses then [Erase(b.todo[0])]
      else if b.stage == Stamps then [Remove(b.todo[0])] else []
    case _ => []
  }

  lemma ProcEmits(s: State, p: Identity, w: Worker, failed: bool)
    requires ProcOf(s, p).Resting? ==> Row(s.kv.scheduled, w) != []
    ensures Emits(s, ProcStep(s, p, w, failed), ProcEvents(s, p, w))
  {
  }

  lemma PurgeEmits(c: Config, s: State)
    requires s.listener.Up? && s.listener.job.DropStamp?
    ensures Emits(s, AfterPurge(c, s, s.listener.job.sub, s.listener.job.victim), JobEvents(c, s, []))
  {
  }

  lemma PurgeStepEmits(c: Config, s: State, order: seq<Id>)
    requires s.listener.Up? && InPurge(s.listener.job)
    ensures Emits(s, PurgeStep(c, s, order), JobEvents(c, s, order))
  {
    if s.listener.job.DropStamp? {
      PurgeEmits(c, s);
    }
  }

  lemma JobEmits(c: Config, s: State, order: seq<Id>, ok: bool)
    requires s.listener.Up?
    ensures Emits(s, JobStep(c, s, order, ok), JobEvents(c, s, order))
  {
    if InPurge(s.listener.job) {
      PurgeStepEmits(c, s, order);
    }
  }

  lemma StepEmits(c: Config, s: State, a: Action)
    requires Enabled(c, s, a)
    ensures Emits(s, Apply(c, s, a), Events(c, s, a))
  {
    match a
    case StepProc(p, failed) => ProcEmits(s, p, c.home[p], failed);
    case StepJob(order, ok) => JobEmits(c, s, order, ok);
    case _ =>
  }

  lemma EmitTracks(s: State, e: Event)
    requires Tracks(s)
    ensures Tracks(Emit(s, e))
  {
    forall id ensures Ph(Emit(s, e), id) == PhaseOf(Emit(s, e).log, id) {
      assert Ph(s, id) == PhaseOf(s.log, id);
      PhaseOfSnoc(s.log, e, id);
    }
  }

  lemma EmitsTrack(s: State, s': State, es: seq<Event>)
    requires Tracks(s) && Emits(s, s', es)
    ensures Tracks(s')
  {
    if |es| >= 1 {
      EmitTracks(s, es[0]);
    }
    if |es| >= 2 {
      EmitTracks(Emit(s, es[0]), es[1]);
    }
    var t := if |es| == 0 then s else if |es| == 1 then Emit(s, es[0]) else Emit(Emit(s, es[0]), es[1]);
    forall id ensures Ph(s', id) == PhaseOf(s'.log, id) {
      assert Ph(t, id) == PhaseOf(t.log, id);
    }
  }

  lemma StepTracks(c: Config, s: State, a: Action)
    requires Tracks(s) && Enabled(c, s, a)
    ensures Tracks(Apply(c, s, a))
  {
    StepEmits(c, s, a);
    EmitsTrack(s, Apply(c, s, a), Events(c, s, a));
  }

  lemma {:induction false} PhasesTrackLog(c: Config, actions: seq<Action>)
    requires c.Valid() && After(c, actions).Some?
    ensures Tracks(After(c, actions).value)
    decreases |actions|
  {
    if actions != [] {
      var last := |actions| - 1;
      PhasesTrackLog(c, actions[..last]);
      StepTracks(c, After(c, actions[..last]).value, actions[last]);
    }
  }

  // ----- conservation -----------------------------------------------------------------------

  datatype Place = AtListener | Queued(w: Worker, i: nat) | HandOf(p: Identity) | OnList(w: Worker, i: nat)

  /** `AtListener`: accepted by a submit that has not queued it, or struck off by a purge
      that has not removed its timestamp (and which may have crashed since). */
  predicate IsAt(s: State, id: Id, place: Place) {
    match place
    case AtListener => var ph := PhaseOf(s.log, id); ph.Accepted? || ph.Struck? || ph.Erased?
    case Queued(w, i) => i < |Row(s.kv.scheduled, w)| && Row(s.kv.scheduled, w)[i] == id
    case HandOf(p) => InHand(ProcOf(s, p)) == Some(id)
    case OnList(w, i) => i < |Row(s.kv.processed, w)| && Row(s.kv.processed, w)[i] == id
  }

  lemma PlaceAgrees(c: Config, s: State, id: Id, place: Place)
    requires Inv(c, s) && Tracks(s) && IsAt(s, id, place)
    ensures match place
            case AtListener => WithListener(Ph(s, id))
            case Queued(w, _) => Ph(s, id) == Scheduled(w)
            case HandOf(p) => IsHeld(Ph(s, id)) && Ph(s, id).p == p
            case OnList(w, _) => Ph(s, id) == Recorded(w)
  {
    match place
    case AtListener => assert Ph(s, id) == PhaseOf(s.log, id);
    case Queued(w, _) => assert WorkerOk(c, s, w);
    case HandOf(p) => assert ProcOk(c, s, p);
    case OnList(w, _) => assert WorkerOk(c, s, w);
  }

  /** In every reachable state every timestamped id is in exactly one place. */
  lemma Conservation(c: Config, actions: seq<Action>, id: Id) returns (place: Place)
    requires c.Valid() && After(c, actions).Some?
    requires id in After(c, actions).value.kv.stamps
    ensures var s := After(c, actions).value;
            IsAt(s, id, place) && forall other :: IsAt(s, id, other) ==> other == place
  {
    var s := After(c, actions).value;
    ReachableInv(c, actions);
    PhasesTrackLog(c, actions);
    assert IdOk(s, id) && Ph(s, id) == PhaseOf(s.log, id);
    var ph := Ph(s, id);
    if ph.Scheduled? {
      var i :| 0 <= i < |Row(s.kv.scheduled, ph.w)| && Row(s.kv.scheduled, ph.w)[i] == id;
      place := Queued(ph.w, i);
      assert WorkerOk(c, s, ph.w);
    } else if ph.Recorded? {
      var i :| 0 <= i < |Row(s.kv.processed, ph.w)| && Row(s.kv.processed, ph.w)[i] == id;
      place := OnList(ph.w, i);
      assert WorkerOk(c, s, ph.w);
    } else if IsHeld(ph) {
      place := HandOf(ph.p);
    } else {
      place := AtListener;
    }
    forall other | IsAt(s, id, other) ensures other == place {
      PlaceAgrees(c, s, id, other);
    }
  }

  // ----- at most once --------------------------------------------------------------------------

  function Accepts(log: seq<Event>, id: Id): nat {
    if log == [] then 0
    else Accepts(log[..|log| - 1], id) + if log[|log| - 1] == Accept(id) then 1 else 0
  }

  function Executions(log: seq<Event>, id: Id): nat {
    if log == [] then 0
    else
      var e := log[|log| - 1];
      Executions(log[..|log| - 1], id) + if e.Execute? && e.id == id then 1 else 0
  }

  /** An accepted id still owed its execution. */
  predicate Owed(ph: Phase) {
    ph.Accepted? || ph.Scheduled? || ph.Held?
  }

  lemma {:induction false} LegalCounts(log: seq<Event>, id: Id)
    requires PhaseOf(log, id) != Illegal
    ensures Executions(log, id) + (if Owed(PhaseOf(log, id)) then 1 else 0) <= Accepts(log, id)
    decreases |log|
  {
    if log != [] {
      LegalCounts(log[..|log| - 1], id);
    }
  }

  /** No reachable log is illegal for any id. */
  lemma LivesAreLegal(c: Config, actions: seq<Action>, id: Id)
    requires c.Valid() && After(c, actions).Some?
    ensures PhaseOf(After(c, actions).value.log, id) != Illegal
  {
    var s := After(c, actions).value;
    ReachableInv(c, actions);
    PhasesTrackLog(c, actions);
    assert IdOk(s, id) && Ph(s, id) == PhaseOf(s.log, id);
  }

  /** An id is executed at most as often as it is accepted. */
  lemma AtMostOnce(c: Config, actions: seq<Action>, id: Id)
    requires c.Valid() && After(c, actions).Some?
    ensures var log := After(c, actions).value.log;
            Executions(log, id) <= Accepts(log, id)
  {
    LivesAreLegal(c, actions, id);
    LegalCounts(After(c, actions).value.log, id);
  }

  lemma {:induction false} LegalPrefix(log: seq<Event>, id: Id, n: nat)
    requires PhaseOf(log, id) != Illegal && n <= |log|
    ensures PhaseOf(log[..n], id) != Illegal
    decreases |log|
  {
    if n == |log| {
      assert log[..n] == log;
    } else {
      LegalPrefix(log[..|log| - 1], id, n);
      assert log[..|log| - 1][..n] == log[..n];
    }
  }

  /** The event that brought `id` into its present phase; it has not moved since. */
  lemma {:induction false} LastMove(log: seq<Event>, id: Id, from: nat) returns (k: nat)
    requires from <= |log| && PhaseOf(log[..from], id) != PhaseOf(log, id)
    ensures from <= k < |log| && log[k].id == id
    ensures NextPhase(PhaseOf(log[..k], id), log[k]) == PhaseOf(log, id)
    ensures PhaseOf(log[..k], id) != PhaseOf(log, id)
    decreases |log|
  {
    var last := |log| - 1;
    assert log[..|log|] == log;
    if PhaseOf(log[..last], id) == PhaseOf(log, id) {
      assert log[..last][..from] == log[..from];
      k := LastMove(log[..last], id, from);
      assert log[..last][..k] == log[..k];
    } else {
      k := last;
    }
  }

  /** A removal found the id still `Accepted` only if no submit had queued it. */
  lemma NeverQueued(log: seq<Event>, id: Id, i: nat, k: nat, m: nat)
    requires i < m < k <= |log| && PhaseOf(log[..k], id) == Accepted
    requires forall n :: i < n < k ==> log[n] != Accept(id)
    ensures !(log[m].Enqueue? && log[m].id == id)
  {
    if log[m].Enqueue? && log[m].id == id {
      assert log[..m + 1][..m] == log[..m];
      assert log[..k][..m + 1] == log[..m + 1];
      var n := LastMove(log[..k], id, m + 1);
    }
  }

  /** `id` was released at `k` after its acceptance at `i`: either no submit had queued
      it, or its processing was recorded and a purge struck it off. */
  predicate ReleasedAt(log: seq<Event>, id: Id, i: nat, k: nat) {
    && i < k < |log| && log[k] == Remove(id)
    && ((forall m :: i < m < k ==> !(log[m].Enqueue? && log[m].id == id)) ||
        (exists r, t :: i < r < t < k && log[r].Record? && log[r].id == id && log[t].Strike? && log[t].id == id))
  }

  /** In a legal log, a removal after an acceptance is a release. */
  lemma RemovalReleases(log: seq<Event>, id: Id, i: nat, k: nat)
    requires i < k < |log| && PhaseOf(log[..i + 1], id) == Accepted
    requires log[k] == Remove(id) && NextPhase(PhaseOf(log[..k], id), log[k]) != Illegal
    requires forall n :: i < n < k ==> log[n] != Accept(id)
    ensures ReleasedAt(log, id, i, k)
  {
    if PhaseOf(log[..k], id) == Accepted {
      forall m | i < m < k ensures !(log[m].Enqueue? && log[m].id == id) {
        NeverQueued(log, id, i, k, m);
      }
    } else {
      assert log[..k][..i + 1] == log[..i + 1];
      var e := LastMove(log[..k], id, i + 1);
      assert log[..k][..e] == log[..e];
      assert log[..e][..i + 1] == log[..i + 1];
      var t := LastMove(log[..e], id, i + 1);
      assert log[..e][..t] == log[..t];
      assert log[..t][..i + 1] == log[..i + 1];
      var r := LastMove(log[..t], id, i + 1);
      assert log[r].Record? && log[t].Strike?;
    }
  }

  lemma LegalReaccept(log: seq<Event>, id: Id, i: nat, j: nat) returns (k: nat)
    requires PhaseOf(log, id) != Illegal
    requires i < j < |log| && log[i] == Accept(id) && log[j] == Accept(id)
    requires forall n :: i < n < j ==> log[n] != Accept(id)
    ensures k < j && ReleasedAt(log, id, i, k)
  {
    LegalPrefix(log, id, j + 1);
    LegalPrefix(log, id, i + 1);
    assert log[..j + 1][..j] == log[..j];
    assert log[..i + 1][..i] == log[..i];
    assert log[..j][..i + 1] == log[..i + 1];
    k := LastMove(log[..j], id, i + 1);
    assert log[..j][..k] == log[..k];
    LegalPrefix(log, id, k + 1);
    assert log[..k + 1][..k] == log[..k];
    RemovalReleases(log, id, i, k);
  }

  /** Between two consecutive acceptances of an id it is released. */
  lemma ReacceptedOnlyAfterRelease(c: Config, actions: seq<Action>, id: Id, i: nat, j: nat) returns (k: nat)
    requires c.Valid() && After(c, actions).Some?
    requires var log := After(c, actions).value.log;
             && i < j < |log| && log[i] == Accept(id) && log[j] == Accept(id)
             && forall n :: i < n < j ==> log[n] != Accept(id)
    ensures k < j && ReleasedAt(After(c, actions).value.log, id, i, k)
  {
    LivesAreLegal(c, actions, id);
    k := LegalReaccept(After(c, actions).value.log, id, i, j);
  }

  /** The "empty work order" branch of a processor is never taken. */
  lemma {:induction false} NoEmptyOrder(c: Config, actions: seq<Action>, i: nat)
    requires c.Valid() && After(c, actions).Some?
    requires i < |After(c, actions).value.log|
    ensures !After(c, actions).value.log[i].Lost?
  {
    var log := After(c, actions).value.log;
    var id := log[i].id;
    LivesAreLegal(c, actions, id);
    LegalPrefix(log, id, i + 1);
    assert log[..i + 1][..i] == log[..i];
  }

  // ----- order ---------------------------------------------------------------------------------

  /** Ids ever appended to the scheduled list of `w`, in order. */
  function Appended(log: seq<Event>, w: Worker): seq<Id> {
    if log == [] then []
    else
      var e := log[|log| - 1];
      Appended(log[..|log| - 1], w) + if e.Enqueue? && e.w == w then [e.id] else []
  }

  /** Ids ever popped from it, by any processor, in order. */
  function Taken(log: seq<Event>, w: Worker): seq<Id> {
    if log == [] then []
    else
      var e := log[|log| - 1];
      Taken(log[..|log| - 1], w) + if e.Take? && e.w == w then [e.id] else []
  }

  predicate InOrder(s: State, w: Worker) {
    Appended(s.log, w) == Taken(s.log, w) + Row(s.kv.scheduled, w)
  }

  lemma OrderSnoc(log: seq<Event>, e: Event, w: Worker)
    ensures Appended(log + [e], w) == Appended(log, w) + if e.Enqueue? && e.w == w then [e.id] else []
    ensures Taken(log + [e], w) == Taken(log, w) + if e.Take? && e.w == w then [e.id] else []
  {
    assert (log + [e])[..|log|] == log;
  }

  predicate NoQueueing(es: seq<Event>) {
    forall i :: 0 <= i < |es| ==> !es[i].Enqueue? && !es[i].Take?
  }

  /** Events other than queueing and popping leave both sequences alone. */
  lemma OtherEvents(s: State, s': State, es: seq<Event>, w: Worker)
    requires InOrder(s, w) && Emits(s, s', es) && s'.kv.scheduled == s.kv.scheduled
    requires NoQueueing(es)
    ensures InOrder(s', w)
  {
    if |es| >= 1 {
      OtherEvent(s.log, es[0], w);
    }
    if |es| >= 2 {
      OtherEvent(s.log + [es[0]], es[1], w);
    }
  }

  lemma OtherEvent(log: seq<Event>, e: Event, w: Worker)
    requires !e.Enqueue? && !e.Take?
    ensures Appended(log + [e], w) == Appended(log, w) && Taken(log + [e], w) == Taken(log, w)
  {
    OrderSnoc(log, e, w);
    assert Appended(log, w) + [] == Appended(log, w) && Taken(log, w) + [] == Taken(log, w);
  }

  lemma TakeMoves(s: State, p: Identity, w: Worker, failed: bool, v: Worker)
    requires ProcOf(s, p).Resting? && Row(s.kv.scheduled, w) != []
    ensures var s', q := ProcStep(s, p, w, failed), Row(s.kv.scheduled, w);
            && s'.log == s.log + [Take(q[0], p, w)]
            && Row(s'.kv.scheduled, v) == if v == w then q[1..] else Row(s.kv.scheduled, v)
  {
  }

  lemma TakeInOrder(s: State, p: Identity, w: Worker, failed: bool, v: Worker)
    requires InOrder(s, v) && ProcOf(s, p).Resting? && Row(s.kv.scheduled, w) != []
    ensures InOrder(ProcStep(s, p, w, failed), v)
  {
    var q, taken := Row(s.kv.scheduled, w), Taken(s.log, v);
    TakeMoves(s, p, w, failed, v);
    OrderSnoc(s.log, Take(q[0], p, w), v);
    if v == w {
      assert taken + [q[0]] + q[1..] == taken + q;
    }
  }

  lemma ProcNoQueueing(s: State, p: Identity, w: Worker, failed: bool)
    requires !ProcOf(s, p).Resting?
    ensures NoQueueing(ProcEvents(s, p, w)) && ProcStep(s, p, w, failed).kv.scheduled == s.kv.scheduled
  {
  }

  lemma ProcInOrder(s: State, p: Identity, w: Worker, failed: bool, v: Worker)
    requires InOrder(s, v) && (ProcOf(s, p).Resting? ==> Row(s.kv.scheduled, w) != [])
    ensures InOrder(ProcStep(s, p, w, failed), v)
  {
    if ProcOf(s, p).Resting? {
      TakeInOrder(s, p, w, failed, v);
    } else {
      ProcEmits(s, p, w, failed);
      ProcNoQueueing(s, p, w, failed);
      OtherEvents(s, ProcStep(s, p, w, failed), ProcEvents(s, p, w), v);
    }
  }

  lemma JobEventsOther(c: Config, s: State, order: seq<Id>)
    requires s.listener.Up? && !s.listener.job.Append?
    ensures NoQueueing(JobEvents(c, s, order))
  {
  }

  lemma JobSameQueues(c: Config, s: State, order: seq<Id>, ok: bool)
    requires s.listener.Up? && !s.listener.job.Append?
    ensures JobStep(c, s, order, ok).kv.scheduled == s.kv.scheduled
  {
    match s.listener.job
    case DropStamp(sub, id) => assert AfterPurge(c, s, sub, id).kv.scheduled == s.kv.scheduled;
    case _ =>
  }

  lemma AppendInOrder(c: Config, s: State, order: seq<Id>, ok: bool, v: Worker)
    requires InOrder(s, v) && s.listener.Up? && s.listener.job.Append?
    ensures InOrder(JobStep(c, s, order, ok), v)
  {
    var sub := s.listener.job.sub;
    OrderSnoc(s.log, Enqueue(sub.id, sub.w), v);
  }

  lemma JobInOrder(c: Config, s: State, order: seq<Id>, ok: bool, v: Worker)
    requires InOrder(s, v) && s.listener.Up?
    ensures InOrder(JobStep(c, s, order, ok), v)
  {
    if s.listener.job.Append? {
      AppendInOrder(c, s, order, ok, v);
    } else {
      JobEmits(c, s, order, ok);
      JobEventsOther(c, s, order);
      JobSameQueues(c, s, order, ok);
      OtherEvents(s, JobStep(c, s, order, ok), JobEvents(c, s, order), v);
    }
  }

  lemma StepInOrder(c: Config, s: State, a: Action, w: Worker)
    requires InOrder(s, w) && Enabled(c, s, a)
    ensures InOrder(Apply(c, s, a), w)
  {
    match a
    case StepProc(p, failed) => ProcInOrder(s, p, c.home[p], failed, w);
    case StepJob(order, ok) => JobInOrder(c, s, order, ok, w);
    case StepBoot => BootInOrder(c, s, w);
    case Crash =>
    case StartBoot(_) =>
    case Receive(_) =>
  }

  lemma BootInOrder(c: Config, s: State, w: Worker)
    requires InOrder(s, w) && s.listener.Booting?
    ensures InOrder(BootStep(s), w)
  {
    StepEmits(c, s, StepBoot);
    BootNoQueueing(c, s);
    OtherEvents(s, BootStep(s), Events(c, s, StepBoot), w);
  }

  lemma BootNoQueueing(c: Config, s: State)
    requires s.listener.Booting?
    ensures NoQueueing(Events(c, s, StepBoot)) && BootStep(s).kv.scheduled == s.kv.scheduled
  {
    match s.listener.stage
    case Requests =>
    case Responses =>
    case Receipts =>
    case Stamps =>
  }

  /** First in, first out: what was popped for a worker followed by what is queued is
      what was ever appended. */
  lemma {:induction false} Fifo(c: Config, actions: seq<Action>, w: Worker)
    requires After(c, actions).Some?
    ensures var s := After(c, actions).value;
            Taken(s.log, w) + Row(s.kv.scheduled, w) == Appended(s.log, w)
    decreases |actions|
  {
    if actions != [] {
      var last := |actions| - 1;
      Fifo(c, actions[..last], w);
      StepInOrder(c, After(c, actions[..last]).value, actions[last], w);
    }
  }
}
