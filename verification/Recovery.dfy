/** Booting after a crash.

`BootKv` is what an uninterrupted boot leaves in the tables.  Crashes during
boot do not change where boots end up, and a submit or purge interrupted at any
key-value operation is, after the next boot, either undone or completed.
*/
module Recovery {
  import opened WorkOrders
  import opened Lifecycle
  import opened Guarantees

  function Live(c: Config, kv: Kv): set<Id> {
    set id | id in kv.stamps && IsLive(c, kv, id)
  }

  /** The tables without the rows of `dead`. */
  function Dropped(kv: Kv, dead: set<Id>): Kv {
    kv.(stamps := kv.stamps - dead, requests := kv.requests - dead,
        responses := kv.responses - dead, receipts := kv.receipts - dead)
  }

  function BootKv(c: Config, kv: Kv): Kv {
    Dropped(kv, kv.stamps - Live(c, kv))
  }

  lemma LiveAgrees(c: Config, kv: Kv, kv': Kv)
    requires kv'.scheduled == kv.scheduled && kv'.processed == kv.processed && kv'.processing == kv.processing
    ensures forall id :: IsLive(c, kv', id) <==> IsLive(c, kv, id)
  {
    forall id ensures IsLive(c, kv', id) <==> IsLive(c, kv, id) { LiveSame(c, kv, kv', id); }
  }

  /** A second boot changes nothing. */
  lemma BootIdempotent(c: Config, kv: Kv)
    ensures BootKv(c, BootKv(c, kv)) == BootKv(c, kv)
    ensures BootKv(c, kv).stamps == Live(c, kv)
  {
    LiveAgrees(c, kv, BootKv(c, kv));
  }

  // ----- crashes during boot -----------------------------------------------------------------

  lemma RowsDropped<V>(m: map<Id, V>, m': map<Id, V>, dead: set<Id>, dead': set<Id>, id: Id)
    requires id in dead && (m' == m || m' == m - {id})
    requires dead' == dead || (dead' == dead - {id} && id !in m')
    ensures m' - dead' == m - dead
  {
  }

  /** Removing some rows of a dead id, the timestamp only with all the others gone, does not
      change what booting leaves. */
  lemma DropTowardsBoot(c: Config, kv: Kv, kv': Kv, id: Id)
    requires id in kv.stamps && !IsLive(c, kv, id)
    requires kv'.scheduled == kv.scheduled && kv'.processed == kv.processed && kv'.processing == kv.processing
    requires kv'.requests == kv.requests || kv'.requests == kv.requests - {id}
    requires kv'.responses == kv.responses || kv'.responses == kv.responses - {id}
    requires kv'.receipts == kv.receipts || kv'.receipts == kv.receipts - {id}
    requires kv'.stamps == kv.stamps ||
             (kv'.stamps == kv.stamps - {id} && id !in kv'.requests && id !in kv'.responses && id !in kv'.receipts)
    ensures BootKv(c, kv') == BootKv(c, kv)
  {
    LiveAgrees(c, kv, kv');
    var dead, dead' := kv.stamps - Live(c, kv), kv'.stamps - Live(c, kv');
    assert dead' == if kv'.stamps == kv.stamps then dead else dead - {id};
    RowsDropped(kv.requests, kv'.requests, dead, dead', id);
    RowsDropped(kv.responses, kv'.responses, dead, dead', id);
    assert kv'.receipts - dead' == kv.receipts - dead;
    assert kv'.stamps - dead' == kv.stamps - dead;
  }

  predicate IsReboot(a: Action) {
    a.Crash? || a.StartBoot? || a.StepBoot?
  }

  /** What the boot loop has done so far: every timestamp is still to do or on the list,
      and only live ids are kept. */
  ghost predicate BootProgress(c: Config, s: State) {
    s.listener.Booting? ==>
      var b := s.listener;
      && Distinct(b.list)
      && (forall id :: id in b.list ==> id in s.kv.stamps && id !in b.todo)
      && (forall id :: id in s.kv.stamps ==> id in b.list || id in b.todo)
      && (forall id :: id in b.list ==> id in b.keep)
      && (forall id :: id in b.keep ==> IsLive(c, s.kv, id))
  }

  lemma RebootDropProgress(c: Config, s: State, s': State)
    requires BootDrops(c, s, s') && BootProgress(c, s)
    ensures BootProgress(c, s')
  {
    TailFacts(s.listener.todo);
    DropRow(s, s');
    LiveAgrees(c, s.kv, s'.kv);
  }

  /** Which row each stage of the boot removes. */
  lemma DropRow(s: State, s': State)
    requires s.listener.Booting? && s.listener.todo != [] && s.listener.todo[0] !in s.listener.keep
    requires s' == BootStep(s)
    ensures var id := s.listener.todo[0];
            s'.kv == match s.listener.stage
              case Requests => s.kv.(requests := s.kv.requests - {id})
              case Responses => s.kv.(responses := s.kv.responses - {id})
              case Receipts => s.kv.(receipts := s.kv.receipts - {id})
              case Stamps => s.kv.(stamps := s.kv.stamps - {id})
  {
  }

  lemma RebootDropTarget(c: Config, s: State, s': State)
    requires BootDrops(c, s, s')
    ensures BootKv(c, s'.kv) == BootKv(c, s.kv)
  {
    var id := s.listener.todo[0];
    assert KeptIfLive(c, s, s.listener.keep, id);
    DropRow(s, s');
    DropTowardsBoot(c, s.kv, s'.kv, id);
  }

  lemma RebootKeep(c: Config, s: State, s': State)
    requires Inv(c, s) && BootProgress(c, s) && s.listener.Booting?
    requires s.listener.todo == [] || s.listener.todo[0] in s.listener.keep
    requires s' == BootStep(s)
    ensures BootProgress(c, s') && s'.kv == s.kv
  {
    if s.listener.todo != [] {
      TailFacts(s.listener.todo);
    }
  }

  lemma RebootStep(c: Config, s: State, a: Action)
    requires Inv(c, s) && BootProgress(c, s) && Enabled(c, s, a) && IsReboot(a)
    ensures BootProgress(c, Apply(c, s, a))
    ensures BootKv(c, Apply(c, s, a).kv) == BootKv(c, s.kv)
  {
    if a.StepBoot? {
      if s.listener.todo == [] || s.listener.todo[0] in s.listener.keep {
        RebootKeep(c, s, Apply(c, s, a));
      } else {
        RebootDropProgress(c, s, Apply(c, s, a));
        RebootDropTarget(c, s, Apply(c, s, a));
      }
    }
  }

  lemma {:induction false} RebootRun(c: Config, s: State, actions: seq<Action>)
    requires Inv(c, s) && BootProgress(c, s) && Exec(c, s, actions).Some?
    requires forall i :: 0 <= i < |actions| ==> IsReboot(actions[i])
    ensures var s' := Exec(c, s, actions).value;
            Inv(c, s') && BootProgress(c, s') && BootKv(c, s'.kv) == BootKv(c, s.kv)
    decreases |actions|
  {
    if actions != [] {
      var last := |actions| - 1;
      RebootRun(c, s, actions[..last]);
      StepKeeps(c, Exec(c, s, actions[..last]).value, actions[last]);
      RebootStep(c, Exec(c, s, actions[..last]).value, actions[last]);
    }
  }

  /** However often booting is interrupted, the boot that completes leaves exactly what one
      uninterrupted boot would have left, and an internal list of exactly the timestamped
      ids, each of which some queue, processing entry or processed list names. */
  lemma RebootsConverge(c: Config, s: State, actions: seq<Action>)
    requires Inv(c, s) && s.listener.Down? && Exec(c, s, actions + [StepBoot]).Some?
    requires forall i :: 0 <= i < |actions| ==> IsReboot(actions[i])
    requires Exec(c, s, actions + [StepBoot]).value.listener.Up?
    ensures var s' := Exec(c, s, actions + [StepBoot]).value;
            && s'.kv == BootKv(c, s.kv) && s'.listener.job.Idle?
            && Enumerates(s'.listener.list, s'.kv.stamps) && s'.listener.count == |s'.listener.list|
            && forall id :: id in s'.kv.stamps ==> IsLive(c, s'.kv, id)
  {
    assert (actions + [StepBoot])[..|actions|] == actions;
    RebootRun(c, s, actions);
    var mid := Exec(c, s, actions).value;
    assert mid.listener.Booting?;
    assert mid.kv.stamps == Live(c, mid.kv);
    assert BootKv(c, mid.kv) == mid.kv;
  }

  /** In every reachable state only timestamped ids have a request, response or receipt. */
  lemma RowsOnlyForStamped(c: Config, actions: seq<Action>)
    requires c.Valid() && After(c, actions).Some?
    ensures var kv := After(c, actions).value.kv;
            kv.requests.Keys <= kv.stamps && kv.responses.Keys <= kv.stamps && kv.receipts <= kv.stamps
  {
    var s := After(c, actions).value;
    ReachableInv(c, actions);
    forall id ensures (id in s.kv.requests || id in s.kv.responses || id in s.kv.receipts) ==> id in s.kv.stamps {
      assert IdOk(s, id);
    }
  }

  /** The request of an order goes before its response: in every reachable state an id whose response
      was erased after its processing has no request left. */
  lemma RequestGoesFirst(c: Config, actions: seq<Action>, id: Id)
    requires c.Valid() && After(c, actions).Some? && PhaseOf(After(c, actions).value.log, id).Erased?
    ensures var kv := After(c, actions).value.kv;
            id in kv.stamps && id !in kv.requests && id !in kv.responses
  {
    var s := After(c, actions).value;
    ReachableInv(c, actions);
    PhasesTrackLog(c, actions);
    assert IdOk(s, id) && Ph(s, id) == PhaseOf(s.log, id);
  }

  // ----- interrupted submits and purges ----------------------------------------------------------

  /** The tables after the first `n` operations of accepting a submit. */
  function SubmitKv(kv: Kv, sub: Submit, n: nat): Kv
    requires n <= 3
  {
    var kv1 := if n >= 1 then kv.(stamps := kv.stamps + {sub.id}) else kv;
    var kv2 := if n >= 2 then kv1.(requests := kv1.requests[sub.id := sub.request]) else kv1;
    if n == 3 then kv2.(scheduled := SetRow(kv2.scheduled, sub.w, Row(kv2.scheduled, sub.w) + [sub.id])) else kv2
  }

  predicate Fresh(kv: Kv, id: Id) {
    id !in kv.stamps && id !in kv.requests && id !in kv.responses && id !in kv.receipts
  }

  /** Boot removes an added dead id together with its added row. */
  lemma DeadRowGone<V>(m: map<Id, V>, m': map<Id, V>, dead: set<Id>, id: Id, v: V)
    requires id !in m && (m' == m || m' == m[id := v])
    ensures m' - (dead + {id}) == m - dead
  {
  }

  lemma UnqueuedSubmitErased(c: Config, kv: Kv, sub: Submit, n: nat)
    requires Fresh(kv, sub.id) && 1 <= n < 3 && !IsLive(c, kv, sub.id)
    ensures BootKv(c, SubmitKv(kv, sub, n)) == BootKv(c, kv)
  {
    var kv' := SubmitKv(kv, sub, n);
    LiveAgrees(c, kv, kv');
    var dead, dead' := kv.stamps - Live(c, kv), kv'.stamps - Live(c, kv');
    assert dead' == dead + {sub.id};
    DeadRowGone(kv.requests, kv'.requests, dead, sub.id, sub.request);
    assert kv'.responses - dead' == kv.responses - dead;
    assert kv'.receipts - dead' == kv.receipts - dead;
    assert kv'.stamps - dead' == kv.stamps - dead;
  }

  /** A submit interrupted before its id is queued is undone by the next boot, exactly when
      no entry left over from an earlier life of the id names it. */
  lemma UnqueuedSubmitUndone(c: Config, kv: Kv, sub: Submit, n: nat)
    requires Fresh(kv, sub.id) && 1 <= n < 3
    ensures BootKv(c, SubmitKv(kv, sub, n)) == BootKv(c, kv) <==> !IsLive(c, kv, sub.id)
  {
    if IsLive(c, kv, sub.id) {
      LiveAgrees(c, kv, SubmitKv(kv, sub, n));
      assert sub.id in BootKv(c, SubmitKv(kv, sub, n)).stamps;
      assert sub.id !in BootKv(c, kv).stamps;
    } else {
      UnqueuedSubmitErased(c, kv, sub, n);
    }
  }

  lemma QueuedLive(c: Config, kv: Kv, sub: Submit, id: Id)
    requires sub.w in c.workers
    ensures IsLive(c, SubmitKv(kv, sub, 3), id) <==> IsLive(c, kv, id) || id == sub.id
  {
    var kv' := SubmitKv(kv, sub, 3);
    assert forall v :: Row(kv'.scheduled, v) ==
             if v == sub.w then Row(kv.scheduled, v) + [sub.id] else Row(kv.scheduled, v);
    if id == sub.id {
      assert id in Row(kv'.scheduled, sub.w);
    }
  }

  /** Once its id is queued a submit survives the crash: booting before or after it is the same. */
  lemma QueuedSubmitKept(c: Config, kv: Kv, sub: Submit)
    requires Fresh(kv, sub.id) && sub.w in c.workers
    ensures BootKv(c, SubmitKv(kv, sub, 3)) == SubmitKv(BootKv(c, kv), sub, 3)
  {
    var kv' := SubmitKv(kv, sub, 3);
    forall id ensures IsLive(c, kv', id) <==> IsLive(c, kv, id) || id == sub.id { QueuedLive(c, kv, sub, id); }
    var dead, dead' := kv.stamps - Live(c, kv), kv'.stamps - Live(c, kv');
    assert dead' == dead;
    assert kv'.requests - dead == (kv.requests - dead)[sub.id := sub.request];
    assert kv'.stamps - dead == (kv.stamps - dead) + {sub.id};
  }

  /** The tables after the first `n` operations of purging `id` of worker `w`. */
  function PurgeKv(kv: Kv, id: Id, w: Worker, n: nat): Kv
    requires 1 <= n <= 5
  {
    var kv1 := kv.(processed := SetRow(kv.processed, w, Without(Row(kv.processed, w), id)));
    var kv2 := if n >= 2 then kv1.(requests := kv1.requests - {id}) else kv1;
    var kv3 := if n >= 3 then kv2.(responses := kv2.responses - {id}) else kv2;
    var kv4 := if n >= 4 then kv3.(receipts := kv3.receipts - {id}) else kv3;
    if n == 5 then kv4.(stamps := kv4.stamps - {id}) else kv4
  }

  /** A purge interrupted after striking its id off is completed by the next boot, exactly
      when nothing else names the id. */
  lemma InterruptedPurgeCompleted(c: Config, kv: Kv, id: Id, w: Worker, n: nat)
    requires id in kv.stamps && 1 <= n < 5
    ensures BootKv(c, PurgeKv(kv, id, w, n)) == BootKv(c, PurgeKv(kv, id, w, 5))
            <==> !IsLive(c, PurgeKv(kv, id, w, 1), id)
  {
    var kv1, kvn, kv5 := PurgeKv(kv, id, w, 1), PurgeKv(kv, id, w, n), PurgeKv(kv, id, w, 5);
    LiveAgrees(c, kv1, kvn);
    LiveAgrees(c, kv1, kv5);
    if IsLive(c, kv1, id) {
      assert id in BootKv(c, kvn).stamps;
      assert id !in BootKv(c, kv5).stamps;
    } else {
      DropTowardsBoot(c, kv1, kvn, id);
      DropTowardsBoot(c, kv1, kv5, id);
    }
  }

  // ----- what boot can leave behind -----------------------------------------------------------------

  /** A processor that has recorded `id` and not yet cleared its processing entry. */
  predicate StaleMark(c: Config, s: State, p: Identity, id: Id) {
    p in c.home && ProcOf(s, p) == Listed(id) && p in s.kv.processing
  }

  /** An id the listener alone is responsible for is named by a table only through such an entry. */
  lemma OnlyStaleMarks(c: Config, s: State, id: Id)
    requires Inv(c, s) && WithListener(Ph(s, id))
    ensures IsLive(c, s.kv, id) <==> exists p :: StaleMark(c, s, p, id)
  {
    forall w ensures id !in Row(s.kv.scheduled, w) && id !in Row(s.kv.processed, w) {
      assert WorkerOk(c, s, w);
    }
    forall p | p in c.home && p in s.kv.processing && s.kv.processing[p] == id ensures StaleMark(c, s, p, id) {
      assert ProcOk(c, s, p);
    }
    forall p | StaleMark(c, s, p, id) ensures s.kv.processing[p] == id {
      assert ProcOk(c, s, p);
    }
  }

  /** After a boot a timestamped id is queued, in a processor's hand or on a processed list,
      unless a stale processing entry shields what a crash left of it; and it is so shielded
      exactly when such an entry exists. */
  lemma BootLeavesNoLoss(c: Config, actions: seq<Action>, id: Id)
    requires c.Valid() && After(c, actions).Some?
    requires forall p :: p in c.home ==> Settled(After(c, actions).value, p)
    requires id in After(c, actions).value.kv.stamps
    ensures var s := After(c, actions).value;
            id in BootKv(c, s.kv).stamps <==>
              (!IsAt(s, id, AtListener) || exists p :: StaleMark(c, s, p, id))
  {
    var s := After(c, actions).value;
    ReachableInv(c, actions);
    PhasesTrackLog(c, actions);
    assert IdOk(s, id) && Ph(s, id) == PhaseOf(s.log, id);
    if WithListener(Ph(s, id)) {
      OnlyStaleMarks(c, s, id);
    } else if !IsLive(c, s.kv, id) {
      DeadPhase(c, s, id);
    }
  }
}
