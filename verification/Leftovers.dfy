/** Ids that a crash left with the listener: timestamped, but in no queue, hand or processed list,
and in no request the listener is serving. */
module Leftovers {
  import opened Options
  import opened WorkOrders
  import opened Lifecycle
  import opened Guarantees
  import opened Recovery
  import opened Replies

  /** The listener is in the middle of purging or accepting `id`. */
  predicate Handles(l: Listener, id: Id) {
    l.Up? && match l.job
      case StrikeOff(_, victim, _) => victim == id
      case DropRequest(_, victim) => victim == id
      case DropResponse(_, victim) => victim == id
      case DropReceipt(_, victim) => victim == id
      case DropStamp(_, victim) => victim == id
      case PutStamp(sub) => sub.id == id
      case PutRequest(sub) => sub.id == id
      case Append(sub) => sub.id == id
      case _ => false
  }

  predicate Leftover(s: State, id: Id) {
    WithListener(Ph(s, id)) && !Ph(s, id).Absent? && !Handles(s.listener, id)
  }

  predicate IsBoot(a: Action) {
    a.StartBoot? || a.StepBoot?
  }

  /** Events that say something about an id without moving it. */
  predicate Remark(e: Event) {
    e.Busy? || e.Refuse? || e.Report?
  }

  predicate OnlyRemarks(log: seq<Event>, from: nat, id: Id) {
    forall k :: from <= k < |log| && log[k].id == id ==> Remark(log[k])
  }

  predicate OnlyRemarked(es: seq<Event>, id: Id) {
    forall i :: 0 <= i < |es| && es[i].id == id ==> Remark(es[i])
  }

  lemma ProcLeaves(c: Config, s: State, s': State, p: Identity, failed: bool, id: Id)
    requires ProcMoves(c, s, s', p, failed) && Leftover(s, id)
    ensures SameAt(s, s', id) && s'.listener == s.listener
  {
    assert ProcOk(c, s, p) && WorkerOk(c, s, c.home[p]);
    match ProcOf(s, p)
    case Resting => assert Row(s.kv.scheduled, c.home[p])[0] != id;
    case Popped(x) => assert x != id;
    case Fetched(x, _) => assert x != id;
    case Marked(x, _) => assert x != id;
    case Rejected(x, _) => assert x != id;
    case Ran(x, _, _) => assert x != id;
    case Stored(x) => assert x != id;
    case Listed(_) =>
  }

  lemma ProcSilent(c: Config, s: State, s': State, p: Identity, failed: bool, id: Id)
    requires ProcMoves(c, s, s', p, failed) && Leftover(s, id)
    ensures OnlyRemarked(ProcEvents(s, p, c.home[p]), id)
  {
    assert ProcOk(c, s, p) && WorkerOk(c, s, c.home[p]);
  }

  lemma PurgeEndLeaves(c: Config, s: State, sub: Submit, victim: Id, id: Id)
    requires s.listener.Up? && victim != id
    ensures var s' := AfterPurge(c, s, sub, victim);
            SameAt(s, s', id) && !Handles(s'.listener, id)
  {
  }

  lemma PurgeLeaves(c: Config, s: State, s': State, order: seq<Id>, ok: bool, id: Id)
    requires JobMoves(c, s, s', order, ok) && Leftover(s, id) && InPurge(s.listener.job)
    ensures SameAt(s, s', id) && !Handles(s'.listener, id)
  {
    match s.listener.job
    case Scan(_, _, _) =>
    case ReadStamps(_, _) =>
    case StrikeOff(_, _, _) =>
    case DropRequest(_, _) =>
    case DropResponse(_, _) =>
    case DropReceipt(_, _) =>
    case DropStamp(sub, victim) => PurgeEndLeaves(c, s, sub, victim, id);
  }

  lemma SubmitLeaves(c: Config, s: State, s': State, order: seq<Id>, ok: bool, id: Id)
    requires JobMoves(c, s, s', order, ok) && Leftover(s, id) && InSubmit(s.listener.job)
    ensures SameAt(s, s', id) && !Handles(s'.listener, id)
  {
    assert IdOk(s, id);
    assert s' == SubmitStep(s);
  }

  lemma QueryLeaves(s: State, ok: bool, id: Id)
    requires s.listener.Up? && !InPurge(s.listener.job) && !InSubmit(s.listener.job) && Leftover(s, id)
    ensures var s' := QueryStep(s, ok);
            SameAt(s, s', id) && !Handles(s'.listener, id)
  {
  }

  lemma JobLeaves(c: Config, s: State, s': State, order: seq<Id>, ok: bool, id: Id)
    requires JobMoves(c, s, s', order, ok) && Leftover(s, id)
    ensures SameAt(s, s', id) && !Handles(s'.listener, id)
  {
    if InPurge(s.listener.job) {
      PurgeLeaves(c, s, s', order, ok, id);
    } else if InSubmit(s.listener.job) {
      SubmitLeaves(c, s, s', order, ok, id);
    } else {
      QueryLeaves(s, ok, id);
    }
  }

  lemma JobSilent(c: Config, s: State, s': State, order: seq<Id>, ok: bool, id: Id)
    requires JobMoves(c, s, s', order, ok) && Leftover(s, id)
    ensures OnlyRemarked(JobEvents(c, s, order), id)
  {
  }

  /** No step but one of a boot touches a leftover id or its response. */
  lemma StepLeaves(c: Config, s: State, a: Action, id: Id)
    requires Inv(c, s) && Leftover(s, id) && Enabled(c, s, a) && !IsBoot(a)
    ensures var s' := Apply(c, s, a);
            && SameAt(s, s', id) && Leftover(s', id)
            && OnlyRemarked(Events(c, s, a), id)
  {
    var s' := Apply(c, s, a);
    match a
    case StepProc(p, failed) =>
      ProcLeaves(c, s, s', p, failed, id);
      ProcSilent(c, s, s', p, failed, id);
    case StepJob(order, ok) =>
      JobLeaves(c, s, s', order, ok, id);
      JobSilent(c, s, s', order, ok, id);
    case Crash =>
    case Receive(_) =>
  }

  lemma LogGrows(c: Config, s: State, a: Action)
    requires Enabled(c, s, a)
    ensures Apply(c, s, a).log == s.log + Events(c, s, a)
  {
    StepEmits(c, s, a);
    EmitsLog(s, Apply(c, s, a), Events(c, s, a));
  }

  /** Without a boot a leftover id stays as it is for good: timestamped, in no queue, no hand and no
      processed list, its rows unchanged, and only ever talked about. */
  lemma {:induction false} LeftForever(c: Config, s: State, actions: seq<Action>, id: Id)
    requires Inv(c, s) && Leftover(s, id) && Exec(c, s, actions).Some?
    requires forall i :: 0 <= i < |actions| ==> !IsBoot(actions[i])
    ensures var s' := Exec(c, s, actions).value;
            && SameAt(s, s', id) && Leftover(s', id) && id in s'.kv.stamps
            && s.log <= s'.log && OnlyRemarks(s'.log, |s.log|, id)
    decreases |actions|
  {
    if actions == [] {
      assert IdOk(s, id);
    } else {
      var last := |actions| - 1;
      LeftForever(c, s, actions[..last], id);
      RunKeepsInv(c, s, actions[..last]);
      var t := Exec(c, s, actions[..last]).value;
      StepLeaves(c, t, actions[last], id);
      LogGrows(c, t, actions[last]);
    }
  }

  /** In such a state no queue, hand or list has the id. */
  lemma LeftoverIsNowhere(c: Config, s: State, id: Id, w: Worker, p: Identity)
    requires Inv(c, s) && Leftover(s, id)
    ensures id !in Row(s.kv.scheduled, w) && id !in Row(s.kv.processed, w) && InHand(ProcOf(s, p)) != Some(id)
  {
    assert WorkerOk(c, s, w) && ProcOk(c, s, p);
  }

  // ----- across boots ------------------------------------------------------------------------------

  /** Still as it was in `s0`, and safe from the boot in progress. */
  predicate Undisturbed(s0: State, s: State, id: Id) {
    SameAt(s0, s, id) && Leftover(s, id) && (s.listener.Booting? ==> id in s.listener.keep)
  }

  /** Nothing names the id any more, so no boot will complete before removing it. */
  predicate Doomed(c: Config, s: State, id: Id) {
    && Leftover(s, id) && !IsLive(c, s.kv, id) && !s.listener.Up?
    && (s.listener.Booting? ==> id in s.listener.todo && id !in s.listener.keep)
  }

  lemma OthersMarks(s: State, p: Identity, w: Worker, failed: bool, q: Identity)
    requires (ProcOf(s, p).Resting? ==> Row(s.kv.scheduled, w) != []) && q != p
    ensures var s' := ProcStep(s, p, w, failed);
            ProcOf(s', q) == ProcOf(s, q) && (q in s'.kv.processing <==> q in s.kv.processing)
  {
    match ProcOf(s, p)
    case Resting =>
    case Popped(_) =>
    case Fetched(_, _) =>
    case Marked(_, _) =>
    case Rejected(_, _) =>
    case Ran(_, _, _) =>
    case Stored(_) =>
    case Listed(_) =>
  }

  lemma OwnMark(s: State, p: Identity, w: Worker, failed: bool, id: Id)
    requires ProcOf(s, p).Resting? ==> Row(s.kv.scheduled, w) != []
    requires ProcOf(s, p) != Stored(id) && ProcOf(s, p) != Popped(id)
    ensures ProcOf(ProcStep(s, p, w, failed), p) != Listed(id)
  {
  }

  /** No step of a processor makes an entry name the id. */
  lemma NoNewMark(c: Config, s: State, s': State, p: Identity, failed: bool, id: Id, q: Identity)
    requires ProcMoves(c, s, s', p, failed) && Leftover(s, id) && !StaleMark(c, s, q, id)
    ensures !StaleMark(c, s', q, id)
  {
    if q == p {
      assert ProcOk(c, s, p);
      OwnMark(s, p, c.home[p], failed, id);
    } else {
      OthersMarks(s, p, c.home[p], failed, q);
    }
  }

  lemma DeadStays(c: Config, s: State, s': State, p: Identity, failed: bool, id: Id)
    requires ProcMoves(c, s, s', p, failed) && Inv(c, s') && Leftover(s, id) && !IsLive(c, s.kv, id)
    ensures !IsLive(c, s'.kv, id)
  {
    ProcLeaves(c, s, s', p, failed, id);
    OnlyStaleMarks(c, s, id);
    OnlyStaleMarks(c, s', id);
    forall q ensures !StaleMark(c, s', q, id) {
      NoNewMark(c, s, s', p, failed, id, q);
    }
  }

  lemma BootStartsOver(c: Config, s0: State, s: State, order: seq<Id>, id: Id)
    requires Inv(c, s) && Undisturbed(s0, s, id) && Enabled(c, s, StartBoot(order))
    ensures var s' := Apply(c, s, StartBoot(order));
            Undisturbed(s0, s', id) || Doomed(c, s', id)
  {
    assert IdOk(s, id);
  }

  lemma BootGoesOn(c: Config, s0: State, s: State, id: Id)
    requires Inv(c, s) && Undisturbed(s0, s, id) && Enabled(c, s, StepBoot)
    ensures Undisturbed(s0, Apply(c, s, StepBoot), id) || Doomed(c, Apply(c, s, StepBoot), id)
  {
    BootSpares(s, id);
  }

  lemma UndisturbedStep(c: Config, s0: State, s: State, a: Action, id: Id)
    requires Inv(c, s) && Undisturbed(s0, s, id) && Enabled(c, s, a)
    ensures Undisturbed(s0, Apply(c, s, a), id) || Doomed(c, Apply(c, s, a), id)
  {
    var s' := Apply(c, s, a);
    match a
    case StartBoot(order) =>
      BootStartsOver(c, s0, s, order, id);
    case StepBoot =>
      BootGoesOn(c, s0, s, id);
    case _ =>
      StepLeaves(c, s, a, id);
      NoBootBegins(c, s, a);
  }

  lemma NoBootBegins(c: Config, s: State, a: Action)
    requires Enabled(c, s, a) && !IsBoot(a)
    ensures !Apply(c, s, a).listener.Booting?
  {
    match a
    case StepProc(p, failed) => assert ProcStep(s, p, c.home[p], failed).listener == s.listener;
    case StepJob(order, ok) => assert JobStep(c, s, order, ok).listener.Up?;
    case Crash =>
    case Receive(_) =>
  }

  /** Dropping one id leaves the others alone. */
  lemma BootDropsOther(s: State, id: Id)
    requires s.listener.Booting? && s.listener.todo != [] && s.listener.todo[0] !in s.listener.keep
    requires s.listener.todo[0] != id
    ensures SameAt(s, BootStep(s), id)
  {
    match s.listener.stage
    case Requests =>
    case Responses =>
    case Receipts =>
    case Stamps =>
  }

  lemma BootSameLists(s: State)
    requires s.listener.Booting?
    ensures var kv := BootStep(s).kv;
            kv.scheduled == s.kv.scheduled && kv.processed == s.kv.processed && kv.processing == s.kv.processing
  {
    match s.listener.stage
    case Requests =>
    case Responses =>
    case Receipts =>
    case Stamps =>
  }

  lemma BootListener(s: State)
    requires s.listener.Booting? && s.listener.todo != []
    ensures var l, b := BootStep(s).listener, s.listener;
            && l.Booting? && l.keep == b.keep
            && l.todo == if b.todo[0] in b.keep || b.stage == Stamps then b.todo[1..] else b.todo
  {
  }

  lemma BootSpares(s: State, id: Id)
    requires s.listener.Booting? && id in s.listener.keep
    ensures SameAt(s, BootStep(s), id) && !Handles(BootStep(s).listener, id)
    ensures BootStep(s).listener.Booting? ==> id in BootStep(s).listener.keep
  {
    if s.listener.todo != [] {
      BootListener(s);
      if s.listener.todo[0] !in s.listener.keep {
        BootDropsOther(s, id);
      }
    }
  }

  lemma BootDropsThis(c: Config, s: State, id: Id)
    requires Inv(c, s) && s.listener.Booting? && Doomed(c, s, id) && s.listener.todo[0] == id
    ensures if s.listener.stage == Stamps then Events(c, s, StepBoot) == [Remove(id)]
            else WithListener(Ph(BootStep(s), id)) && !Ph(BootStep(s), id).Absent?
  {
    assert IdOk(s, id);
    match s.listener.stage
    case Requests =>
    case Responses =>
    case Receipts =>
    case Stamps =>
  }

  lemma BootRemoves(c: Config, s: State, id: Id)
    requires Inv(c, s) && s.listener.Booting? && Doomed(c, s, id)
    ensures Doomed(c, BootStep(s), id) || Events(c, s, StepBoot) == [Remove(id)]
  {
    var b := s.listener;
    BootListener(s);
    BootSameLists(s);
    LiveSame(c, s.kv, BootStep(s).kv, id);
    TailFacts(b.todo);
    if b.todo[0] == id {
      BootDropsThis(c, s, id);
    } else if b.todo[0] !in b.keep {
      BootDropsOther(s, id);
    }
  }

  lemma DoomedStep(c: Config, s: State, a: Action, id: Id)
    requires Inv(c, s) && Doomed(c, s, id) && Enabled(c, s, a)
    ensures Doomed(c, Apply(c, s, a), id) || Events(c, s, a) == [Remove(id)]
  {
    match a
    case StepBoot => BootRemoves(c, s, id);
    case StartBoot(_) => assert IdOk(s, id);
    case StepProc(p, failed) =>
      StepKeeps(c, s, a);
      ProcLeaves(c, s, Apply(c, s, a), p, failed, id);
      DeadStays(c, s, Apply(c, s, a), p, failed, id);
    case Crash =>
  }

  /** However often the listener boots, an id it was left with is removed or stays as it is. */
  lemma {:induction false} LeftOrRemoved(c: Config, s: State, actions: seq<Action>, id: Id)
    requires Inv(c, s) && Leftover(s, id) && s.listener.Up? && Exec(c, s, actions).Some?
    ensures var s' := Exec(c, s, actions).value;
            && s.log <= s'.log
            && (Undisturbed(s, s', id) || Doomed(c, s', id) || RemovedIn(s'.log, id, |s.log|, |s'.log|))
    decreases |actions|
  {
    if actions != [] {
      var last := |actions| - 1;
      LeftOrRemoved(c, s, actions[..last], id);
      RunKeepsInv(c, s, actions[..last]);
      var t, a := Exec(c, s, actions[..last]).value, actions[last];
      var s' := Apply(c, t, a);
      LogGrows(c, t, a);
      if RemovedIn(t.log, id, |s.log|, |t.log|) {
        var n :| |s.log| <= n < |t.log| && t.log[n] == Remove(id);
        assert s'.log[n] == Remove(id);
      } else if Undisturbed(s, t, id) {
        UndisturbedStep(c, s, t, a, id);
      } else {
        DoomedStep(c, t, a, id);
        assert Events(c, t, a) == [Remove(id)] ==> s'.log[|t.log|] == Remove(id);
      }
    }
  }

  // ----- replies about leftover ids ----------------------------------------------------------------

  /** A run is its first part followed by the rest. */
  lemma {:induction false} RunInTwo(c: Config, s: State, actions: seq<Action>, n: nat)
    requires n <= |actions| && Exec(c, s, actions).Some?
    ensures Exec(c, s, actions[..n]).Some?
    ensures Exec(c, Exec(c, s, actions[..n]).value, actions[n..]) == Exec(c, s, actions)
    decreases |actions|
  {
    if n == |actions| {
      assert actions[..n] == actions && actions[n..] == [];
    } else {
      var init := actions[..|actions| - 1];
      RunInTwo(c, s, init, n);
      assert init[..n] == actions[..n] && actions[n..][..|actions| - 1 - n] == init[n..];
    }
  }

  lemma {:induction false} LogOnlyGrows(c: Config, s: State, actions: seq<Action>)
    requires Exec(c, s, actions).Some?
    ensures s.log <= Exec(c, s, actions).value.log
    decreases |actions|
  {
    if actions != [] {
      var last := |actions| - 1;
      LogOnlyGrows(c, s, actions[..last]);
      LogGrows(c, Exec(c, s, actions[..last]).value, actions[last]);
    }
  }

  predicate Asking(l: Listener, id: Id) {
    l.Up? && (l.job.AskResponse? || l.job.AskStamp?) && l.job.id == id
  }

  lemma ReportsWhileAsking(c: Config, s: State, a: Action, k: nat)
    requires Enabled(c, s, a) && k < |Events(c, s, a)| && Events(c, s, a)[k].Report?
    ensures k == 0 && Asking(s.listener, Events(c, s, a)[k].id)
  {
  }

  /** The state in which a reply was given. */
  lemma {:induction false} ReplyGiven(c: Config, actions: seq<Action>, i: nat) returns (n: nat)
    requires After(c, actions).Some? && i < |After(c, actions).value.log|
    requires After(c, actions).value.log[i].Report?
    ensures n < |actions| && After(c, actions[..n]).Some?
    ensures var log, t := After(c, actions).value.log, After(c, actions[..n]).value;
            t.log == log[..i] && Asking(t.listener, log[i].id)
    decreases |actions|
  {
    var last := |actions| - 1;
    var t := After(c, actions[..last]).value;
    LogGrows(c, t, actions[last]);
    if i < |t.log| {
      n := ReplyGiven(c, actions[..last], i);
      assert actions[..last][..n] == actions[..n];
    } else {
      n := last;
      ReportsWhileAsking(c, t, actions[last], i - |t.log|);
    }
  }

  /** All replies about a struck-off id agree until it is removed. */
  lemma StruckRepliesAgree(c: Config, actions: seq<Action>, id: Id, i: nat, j: nat)
    requires TwoReplies(c, actions, id, i, j) && !RemovedIn(After(c, actions).value.log, id, i, j)
    requires var ph := PhaseOf(After(c, actions).value.log[..i], id); ph.Struck? || ph.Erased?
    ensures var log := After(c, actions).value.log; log[j].answer == log[i].answer
  {
    var log := After(c, actions).value.log;
    var m := ReplyGiven(c, actions, i);
    var n := ReplyGiven(c, actions, j);
    var s, t := After(c, actions[..m]).value, After(c, actions[..n]).value;
    if n <= m {
      RunInTwo(c, Initial(), actions[..m], n);
      assert actions[..m][..n] == actions[..n];
      LogOnlyGrows(c, t, actions[..m][n..]);
    } else {
      RunInTwo(c, Initial(), actions[..n], m);
      assert actions[..n][..m] == actions[..m];
      ReachableInv(c, actions[..m]);
      PhasesTrackLog(c, actions[..m]);
      PhasesTrackLog(c, actions[..n]);
      assert Ph(s, id) == PhaseOf(s.log, id) && Ph(t, id) == PhaseOf(t.log, id);
      LeftOrRemoved(c, s, actions[..n][m..], id);
      assert RemovedIn(t.log, id, i, j) ==> RemovedIn(log, id, i, j);
      StruckOffReplies(c, actions, i);
      StruckOffReplies(c, actions, j);
    }
  }
}
