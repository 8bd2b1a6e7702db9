/** What clients are told: the replies of `WorkOrderGetResult` over whole runs. */
module Replies {
  import opened WorkOrders
  import opened Lifecycle
  import opened Guarantees

  /** Every id on a processed list has its request and the response to that request stored. */
  lemma ProcessedAreAnswered(c: Config, actions: seq<Action>, w: Worker, i: nat)
    requires c.Valid() && After(c, actions).Some?
    requires i < |Row(After(c, actions).value.kv.processed, w)|
    ensures var kv := After(c, actions).value.kv;
            var id := Row(kv.processed, w)[i];
            && id in kv.stamps && id in kv.requests && id in kv.responses
            && kv.responses[id].request == kv.requests[id]
  {
    var s := After(c, actions).value;
    ReachableInv(c, actions);
    assert WorkerOk(c, s, w);
    assert IdOk(s, Row(s.kv.processed, w)[i]);
  }

  function Rank(a: Answer): nat {
    match a
    case Unknown => 0
    case Pending => 1
    case Answered => 2
  }

  /** The most a client has been told about `id` since its response was last erased or the id
      removed. */
  function Told(log: seq<Event>, id: Id): nat {
    if log == [] then 0
    else
      var e, before := log[|log| - 1], log[..|log| - 1];
      if e.id != id then Told(before, id)
      else if e.Erase? || e.Remove? then 0
      else if e.Report? && Rank(e.answer) > Told(before, id) then Rank(e.answer)
      else Told(before, id)
  }

  /** Every reply says at least what was told and what is certain, and at most what is known. */
  predicate RepliesRise(log: seq<Event>) {
    log == [] ||
    var e, before := log[|log| - 1], log[..|log| - 1];
    RepliesRise(before) && FairReport(before, e)
  }

  /** The best answer the tables can support for an id in this phase. */
  function Known(ph: Phase): nat {
    match ph
    case Absent => 0
    case Replied(_) => 2
    case Recorded(_) => 2
    case Struck => 2
    case _ => 1
  }

  /** The least answer they leave room for: between its two reads a reply may miss a response. */
  function Certain(ph: Phase): nat {
    match ph
    case Absent => 0
    case Struck => 2
    case _ => 1
  }

  predicate FairReport(log: seq<Event>, e: Event) {
    e.Report? ==>
      var ph := PhaseOf(log, e.id);
      Told(log, e.id) <= Rank(e.answer) && Certain(ph) <= Rank(e.answer) <= Known(ph)
  }

  predicate ToldKnown(log: seq<Event>, id: Id) {
    Told(log, id) <= Known(PhaseOf(log, id))
  }

  ghost predicate Fair(log: seq<Event>) {
    RepliesRise(log) && forall id :: ToldKnown(log, id)
  }

  ghost predicate TellsOk(s: State) {
    && Fair(s.log)
    && (s.listener.Up? && s.listener.job.AskStamp? ==> Told(s.log, s.listener.job.id) <= 1)
  }

  lemma ToldSnoc(log: seq<Event>, e: Event, id: Id)
    ensures Told(log + [e], id) ==
            if e.id != id then Told(log, id)
            else if e.Erase? || e.Remove? then 0
            else if e.Report? && Rank(e.answer) > Told(log, id) then Rank(e.answer)
            else Told(log, id)
    ensures RepliesRise(log + [e]) <==> RepliesRise(log) && FairReport(log, e)
  {
    assert (log + [e])[..|log|] == log;
  }

  /** An event that moves its id legally, and reports fairly, keeps replies rising. */
  lemma EventTells(log: seq<Event>, e: Event)
    requires Fair(log) && FairReport(log, e)
    requires NextPhase(PhaseOf(log, e.id), e) != Illegal
    ensures Fair(log + [e])
  {
    ToldSnoc(log, e, e.id);
    forall id ensures ToldKnown(log + [e], id) {
      ToldSnoc(log, e, id);
      PhaseOfSnoc(log, e, id);
      assert ToldKnown(log, id);
    }
  }

  lemma JobReportsFairly(c: Config, s: State, order: seq<Id>)
    requires Inv(c, s) && Tracks(s) && TellsOk(s) && s.listener.Up?
    ensures JobEvents(c, s, order) != [] ==> FairReport(s.log, JobEvents(c, s, order)[0])
    ensures |JobEvents(c, s, order)| == 2 ==> !JobEvents(c, s, order)[1].Report?
  {
    var job := s.listener.job;
    if job.AskResponse? || job.AskStamp? {
      assert IdOk(s, job.id) && Ph(s, job.id) == PhaseOf(s.log, job.id);
      assert ToldKnown(s.log, job.id);
    }
  }

  lemma StepReportsFairly(c: Config, s: State, a: Action)
    requires Inv(c, s) && Tracks(s) && TellsOk(s) && Enabled(c, s, a)
    ensures var es := Events(c, s, a);
            |es| <= 2 && (es != [] ==> FairReport(s.log, es[0])) && (|es| == 2 ==> !es[1].Report?)
  {
    if a.StepJob? {
      JobReportsFairly(c, s, a.order);
    }
  }

  predicate NoReport(es: seq<Event>) {
    forall i :: 0 <= i < |es| ==> !es[i].Report?
  }

  /** Moving on to the second read of `WorkOrderGetResult` means no response was there. */
  lemma JobAsks(c: Config, s: State, order: seq<Id>, ok: bool)
    requires Inv(c, s) && Tracks(s) && TellsOk(s) && s.listener.Up?
    ensures var s' := JobStep(c, s, order, ok);
            s'.listener.Up? && s'.listener.job.AskStamp? && !s.listener.job.Idle? ==>
              Told(s.log, s'.listener.job.id) <= 1 && JobEvents(c, s, order) == []
  {
    if s.listener.job.AskResponse? {
      var id := s.listener.job.id;
      assert IdOk(s, id) && Ph(s, id) == PhaseOf(s.log, id);
      assert ToldKnown(s.log, id);
    }
  }

  lemma StepAsks(c: Config, s: State, a: Action)
    requires Inv(c, s) && Tracks(s) && TellsOk(s) && Enabled(c, s, a)
    ensures var l := Apply(c, s, a).listener;
            l.Up? && l.job.AskStamp? ==> Told(s.log, l.job.id) <= 1 && NoReport(Events(c, s, a))
  {
    if a.StepJob? {
      JobAsks(c, s, a.order, a.ok);
    }
  }

  predicate LegalFor(log: seq<Event>, id: Id) {
    PhaseOf(log, id) != Illegal
  }

  lemma ExtendFair(log: seq<Event>, es: seq<Event>)
    requires Fair(log) && |es| <= 2
    requires forall id :: LegalFor(log + es, id)
    requires (es != [] ==> FairReport(log, es[0])) && (|es| == 2 ==> !es[1].Report?)
    ensures Fair(log + es)
  {
    if |es| == 0 {
      assert log + es == log;
    } else if |es| == 1 {
      assert log + es == log + [es[0]];
      assert LegalFor(log + es, es[0].id);
      PhaseOfSnoc(log, es[0], es[0].id);
      EventTells(log, es[0]);
    } else {
      assert LegalFor(log + es, es[0].id) && LegalFor(log + es, es[1].id);
      var mid := log + [es[0]];
      assert log + es == mid + [es[1]];
      PhaseOfSnoc(log, es[0], es[0].id);
      PhaseOfSnoc(mid, es[1], es[0].id);
      PhaseOfSnoc(mid, es[1], es[1].id);
      EventTells(log, es[0]);
      EventTells(mid, es[1]);
    }
  }

  lemma ToldNoMore(log: seq<Event>, es: seq<Event>, id: Id)
    requires |es| <= 2 && NoReport(es)
    ensures Told(log + es, id) <= Told(log, id)
  {
    if |es| == 0 {
      assert log + es == log;
    } else if |es| == 1 {
      assert log + es == log + [es[0]];
      ToldSnoc(log, es[0], id);
    } else {
      assert log + es == log + [es[0]] + [es[1]];
      ToldSnoc(log, es[0], id);
      ToldSnoc(log + [es[0]], es[1], id);
    }
  }

  lemma EmitsLog(s: State, s': State, es: seq<Event>)
    requires Emits(s, s', es)
    ensures |es| <= 2 && s'.log == s.log + es
  {
  }

  lemma LegalNow(c: Config, s: State)
    requires Inv(c, s) && Tracks(s)
    ensures forall id :: LegalFor(s.log, id)
  {
    forall id ensures LegalFor(s.log, id) {
      assert IdOk(s, id) && Ph(s, id) == PhaseOf(s.log, id);
    }
  }

  lemma StepTells(c: Config, s: State, a: Action)
    requires Inv(c, s) && Tracks(s) && TellsOk(s) && Enabled(c, s, a)
    ensures TellsOk(Apply(c, s, a))
  {
    var s', es := Apply(c, s, a), Events(c, s, a);
    StepEmits(c, s, a);
    EmitsLog(s, s', es);
    StepKeeps(c, s, a);
    StepTracks(c, s, a);
    LegalNow(c, s');
    StepReportsFairly(c, s, a);
    ExtendFair(s.log, es);
    StepAsks(c, s, a);
    if s'.listener.Up? && s'.listener.job.AskStamp? {
      ToldNoMore(s.log, es, s'.listener.job.id);
    }
  }

  lemma {:induction false} RunTells(c: Config, actions: seq<Action>)
    requires c.Valid() && After(c, actions).Some?
    ensures TellsOk(After(c, actions).value)
    decreases |actions|
  {
    if actions != [] {
      var last := |actions| - 1;
      RunTells(c, actions[..last]);
      ReachableInv(c, actions[..last]);
      PhasesTrackLog(c, actions[..last]);
      StepTells(c, After(c, actions[..last]).value, actions[last]);
    }
  }

  lemma {:induction false} RisePrefix(log: seq<Event>, n: nat)
    requires RepliesRise(log) && n <= |log|
    ensures RepliesRise(log[..n])
    decreases |log|
  {
    if n == |log| {
      assert log[..n] == log;
    } else {
      RisePrefix(log[..|log| - 1], n);
      assert log[..|log| - 1][..n] == log[..n];
    }
  }

  lemma FairAt(log: seq<Event>, i: nat)
    requires RepliesRise(log) && i < |log|
    ensures FairReport(log[..i], log[i])
  {
    RisePrefix(log, i + 1);
    assert log[..i + 1][..i] == log[..i];
  }

  // ----- replies over the life of an id -----------------------------------------------------------

  predicate AcceptedIn(log: seq<Event>, id: Id, i: nat, j: nat) {
    exists n :: i <= n < j <= |log| && log[n] == Accept(id)
  }

  predicate ErasedIn(log: seq<Event>, id: Id, i: nat, j: nat) {
    exists n :: i <= n < j <= |log| && log[n] == Erase(id)
  }

  predicate RemovedIn(log: seq<Event>, id: Id, i: nat, j: nat) {
    exists n :: i <= n < j <= |log| && log[n] == Remove(id)
  }

  /** The response of a struck-off id was erased. */
  predicate PurgedIn(log: seq<Event>, id: Id, i: nat, j: nat) {
    exists n :: i <= n < j <= |log| && log[n] == Erase(id) && PhaseOf(log[..n], id) == Struck
  }

  lemma OneLater(log: seq<Event>, id: Id, i: nat, j: nat)
    requires i < j <= |log|
    ensures AcceptedIn(log, id, i, j) <==> AcceptedIn(log, id, i, j - 1) || log[j - 1] == Accept(id)
    ensures ErasedIn(log, id, i, j) <==> ErasedIn(log, id, i, j - 1) || log[j - 1] == Erase(id)
    ensures RemovedIn(log, id, i, j) <==> RemovedIn(log, id, i, j - 1) || log[j - 1] == Remove(id)
    ensures PurgedIn(log, id, i, j) <==>
              PurgedIn(log, id, i, j - 1) || (log[j - 1] == Erase(id) && PhaseOf(log[..j - 1], id) == Struck)
  {
  }

  predicate Gone(ph: Phase) {
    ph.Erased? || ph.Absent?
  }

  /** Within one life an id is gone exactly after its removal, and one that was answered stays
      so exactly until a purge of it erases the response. */
  lemma {:induction false} OneLife(log: seq<Event>, id: Id, i: nat, j: nat)
    requires i <= j <= |log| && PhaseOf(log, id) != Illegal && !AcceptedIn(log, id, i, j)
    ensures var a, b := PhaseOf(log[..i], id), PhaseOf(log[..j], id);
            && (b.Absent? <==> a.Absent? || RemovedIn(log, id, i, j))
            && (Known(a) == 2 ==> if ErasedIn(log, id, i, j) then Gone(b) && PurgedIn(log, id, i, j)
                                  else Known(b) == 2 && !RemovedIn(log, id, i, j))
    decreases j
  {
    if i < j {
      OneLater(log, id, i, j);
      OneLife(log, id, i, j - 1);
      LegalPrefix(log, id, j);
      LegalPrefix(log, id, j - 1);
      assert log[..j] == log[..j - 1] + [log[j - 1]];
      PhaseOfSnoc(log[..j - 1], log[j - 1], id);
    }
  }

  /** A reply stays told as long as nothing erases the response or removes the id. */
  lemma {:induction false} ToldSince(log: seq<Event>, id: Id, i: nat, j: nat)
    requires i < j <= |log| && log[i].Report? && log[i].id == id
    requires !ErasedIn(log, id, i, j) && !RemovedIn(log, id, i, j)
    ensures Told(log[..j], id) >= Rank(log[i].answer)
    decreases j
  {
    assert log[..j] == log[..j - 1] + [log[j - 1]];
    ToldSnoc(log[..j - 1], log[j - 1], id);
    OneLater(log, id, i, j);
    if i < j - 1 {
      ToldSince(log, id, i, j - 1);
    }
  }

  ghost predicate TwoReplies(c: Config, actions: seq<Action>, id: Id, i: nat, j: nat) {
    && c.Valid() && After(c, actions).Some?
    && var log := After(c, actions).value.log;
    && i < j < |log| && log[i].Report? && log[j].Report? && log[i].id == id && log[j].id == id
  }

  /** What `WorkOrderGetResult` reports for an id moves only from unknown to pending to
      answered, until its response is erased or its timestamp removed. */
  lemma AnswersOnlyRise(c: Config, actions: seq<Action>, id: Id, i: nat, j: nat)
    requires TwoReplies(c, actions, id, i, j)
    requires var log := After(c, actions).value.log; !ErasedIn(log, id, i, j) && !RemovedIn(log, id, i, j)
    ensures var log := After(c, actions).value.log; Rank(log[i].answer) <= Rank(log[j].answer)
  {
    var log := After(c, actions).value.log;
    RunTells(c, actions);
    FairAt(log, j);
    ToldSince(log, id, i, j);
  }

  /** Within one life of an id a later reply says less exactly when the answer was erased by a
      purge, or the id removed, in between. */
  lemma RepliesExact(c: Config, actions: seq<Action>, id: Id, i: nat, j: nat)
    requires TwoReplies(c, actions, id, i, j)
    requires !AcceptedIn(After(c, actions).value.log, id, i, j)
    ensures var log := After(c, actions).value.log;
            var a, b := log[i].answer, log[j].answer;
            && (a == Answered ==> (b != Answered <==> PurgedIn(log, id, i, j)))
            && (a != Unknown ==> (b == Unknown <==> RemovedIn(log, id, i, j)))
            && (Rank(b) < Rank(a) <==>
                  (a == Answered && PurgedIn(log, id, i, j)) || (a != Unknown && RemovedIn(log, id, i, j)))
  {
    var log := After(c, actions).value.log;
    RunTells(c, actions);
    LivesAreLegal(c, actions, id);
    FairAt(log, i);
    FairAt(log, j);
    OneLife(log, id, i, j);
    if !ErasedIn(log, id, i, j) && !RemovedIn(log, id, i, j) {
      AnswersOnlyRise(c, actions, id, i, j);
    }
  }

  /** While an id is struck off its response is reported; once that is erased, pending is. */
  lemma StruckOffReplies(c: Config, actions: seq<Action>, i: nat)
    requires c.Valid() && After(c, actions).Some?
    requires i < |After(c, actions).value.log| && After(c, actions).value.log[i].Report?
    ensures var log := After(c, actions).value.log;
            var ph := PhaseOf(log[..i], log[i].id);
            && (ph.Struck? ==> log[i].answer == Answered)
            && (ph.Erased? ==> log[i].answer == Pending)
  {
    RunTells(c, actions);
    FairAt(After(c, actions).value.log, i);
  }
}
