/** Rounds of worker synchronisation in which some calls fail.

A failed call is logged and the round goes on with the next worker, except where
the code stumbles over the failure.  So a failure costs the worker it is about
its update, and no other worker.
*/
module FailedCalls {
  import opened Options
  import opened WorkerSync

  /** The call aborts the round: it raises an exception, or it is one whose failure is not handled. */
  predicate Fatal(call: Call, answer: Answer) {
    answer.Raise? || (answer.Failure? && (call.Retrieve? || (call.SetStatus? && call.status == ACTIVE)))
  }

  /** Calls made since the first `from`. */
  ghost predicate FatalSince(w: World, from: nat, net: Network) {
    exists n :: from <= n < |w.calls| && Fatal(w.calls[n], net(n))
  }

  ghost predicate OwnSucceed(w: World, from: nat, net: Network, id: Wid) {
    forall n :: from <= n < |w.calls| && w.calls[n].id == id ==> net(n) == Success
  }

  ghost predicate OnlyAbout(w: World, from: nat, id: Wid) {
    forall n :: from <= n < |w.calls| ==> w.calls[n].id == id
  }

  ghost predicate NoneAbout(w: World, from: nat, id: Wid) {
    forall n :: from <= n < |w.calls| ==> w.calls[n].id != id
  }

  // ----- what ends a round ------------------------------------------------------------------------

  lemma InvokeCalls(w: World, call: Call, net: Network)
    ensures var w' := Invoke(w, call, net).0;
            && w'.calls == w.calls + [call] && w'.details == w.details && w'.status == w.status
            && (w'.aborted <==> w.aborted || net(|w.calls|).Raise?)
            && (Admits(w.chain, call) ==> (Invoke(w, call, net).1 <==> net(|w.calls|).Success?))
            && (Invoke(w, call, net).1 ==> net(|w.calls|).Success?)
  {
  }

  /** What one or two further calls of a step come to. */
  lemma OneCall(w: World, w': World, net: Network)
    requires |w'.calls| == |w.calls| + 1 && w.calls <= w'.calls
    ensures FatalSince(w', |w.calls|, net) <==> Fatal(w'.calls[|w.calls|], net(|w.calls|))
  {
  }

  lemma TwoCalls(w: World, w': World, net: Network)
    requires |w'.calls| == |w.calls| + 2 && w.calls <= w'.calls
    ensures FatalSince(w', |w.calls|, net) <==>
              Fatal(w'.calls[|w.calls|], net(|w.calls|)) || Fatal(w'.calls[|w.calls| + 1], net(|w.calls| + 1))
  {
  }

  lemma UpdatedCalls(w: World, id: Wid, d: string, net: Network)
    requires !w.aborted
    ensures var w' := Updated(w, id, d, net);
            w.calls <= w'.calls && OnlyAbout(w', |w.calls|, id) && (w'.aborted <==> FatalSince(w', |w.calls|, net))
  {
    var w' := Updated(w, id, d, net);
    InvokeCalls(w, UpdateDetails(id, d), net);
    var (w1, ok) := Invoke(w, UpdateDetails(id, d), net);
    if ok {
      var w2 := w1.(details := w1.details[id := d]);
      assert id in w2.chain;
      InvokeCalls(w2, SetStatus(id, ACTIVE), net);
      TwoCalls(w, w', net);
    } else {
      OneCall(w, w', net);
    }
  }

  lemma RegisteredCalls(w: World, id: Wid, d: string, net: Network)
    requires !w.aborted
    ensures var w' := Registered(w, id, d, net);
            w.calls <= w'.calls && OnlyAbout(w', |w.calls|, id) && (w'.aborted <==> FatalSince(w', |w.calls|, net))
  {
    InvokeCalls(w, Register(id, d), net);
    OneCall(w, Registered(w, id, d, net), net);
  }

  lemma DecommissionedCalls(w: World, id: Wid, net: Network)
    requires !w.aborted
    ensures var w' := Decommissioned(w, id, net);
            && w'.calls == w.calls + [SetStatus(id, DECOMMISSIONED)] && OnlyAbout(w', |w.calls|, id)
            && (w'.aborted <==> FatalSince(w', |w.calls|, net))
  {
    InvokeCalls(w, SetStatus(id, DECOMMISSIONED), net);
    OneCall(w, Decommissioned(w, id, net), net);
  }

  lemma KvStepCalls(w: World, r: Round, id: Wid, net: Network)
    requires !w.aborted
    ensures var w' := KvStep(w, r, id, net);
            && w.calls <= w'.calls && OnlyAbout(w', |w.calls|, id)
            && (w'.aborted <==> id !in r.info || FatalSince(w', |w.calls|, net))
  {
    if Stored(r, id) {
      RegisteredCalls(w, id, Info(r, id), net);
      UpdatedCalls(w, id, Info(r, id), net);
    }
  }

  lemma StaleStepCalls(w: World, r: Round, id: Wid, net: Network)
    requires !w.aborted
    ensures var w' := StaleStep(w, r, id, net);
            && w.calls <= w'.calls && OnlyAbout(w', |w.calls|, id) && (id in r.kv ==> w' == w)
            && (w'.aborted <==> FatalSince(w', |w.calls|, net))
  {
    var w' := StaleStep(w, r, id, net);
    if id in r.kv {
    } else if id in w.status {
      DecommissionedCalls(w, id, net);
    } else {
      InvokeCalls(w, Retrieve(id), net);
      var (w1, ok) := Invoke(w, Retrieve(id), net);
      OneCall(w, w1, net);
      if ok && !(id in w1.chain && w1.chain[id].status == DECOMMISSIONED) {
        DecommissionedCalls(w1, id, net);
        OneCall(w1, w', net);
        TwoCalls(w, w', net);
      } else {
        OneCall(w, w', net);
      }
    }
  }

  lemma SinceSplits(before: World, w: World, from: nat, net: Network)
    requires from <= |before.calls| && before.calls <= w.calls
    ensures FatalSince(w, from, net) <==> FatalSince(before, from, net) || FatalSince(w, |before.calls|, net)
  {
    if n :| from <= n < |before.calls| && Fatal(before.calls[n], net(n)) {
      assert Fatal(w.calls[n], net(n));
    }
    if n :| from <= n < |w.calls| && Fatal(w.calls[n], net(n)) {
      assert n < |before.calls| ==> Fatal(before.calls[n], net(n));
    }
  }

  predicate SomeUnread(r: Round, ids: seq<Wid>) {
    exists i :: 0 <= i < |ids| && ids[i] !in r.info
  }

  lemma UnreadSnoc(r: Round, ids: seq<Wid>)
    requires ids != []
    ensures SomeUnread(r, ids) <==> SomeUnread(r, ids[..|ids| - 1]) || ids[|ids| - 1] !in r.info
  {
    var init := ids[..|ids| - 1];
    if i :| 0 <= i < |init| && init[i] !in r.info {
      assert ids[i] !in r.info;
    }
    if i :| 0 <= i < |ids| && ids[i] !in r.info {
      assert i < |init| ==> init[i] !in r.info;
    }
  }

  lemma {:induction false} KvLoopEnds(w: World, r: Round, ids: seq<Wid>, net: Network)
    requires !w.aborted
    ensures var w' := KvLoop(w, r, ids, net);
            w.calls <= w'.calls && (w'.aborted <==> SomeUnread(r, ids) || FatalSince(w', |w.calls|, net))
    decreases |ids|
  {
    if ids != [] {
      var init, x := ids[..|ids| - 1], ids[|ids| - 1];
      KvLoopEnds(w, r, init, net);
      UnreadSnoc(r, ids);
      var before := KvLoop(w, r, init, net);
      if !before.aborted {
        KvStepCalls(before, r, x, net);
        SinceSplits(before, KvStep(before, r, x, net), |w.calls|, net);
      }
    }
  }

  lemma {:induction false} StaleLoopEnds(w: World, r: Round, ids: seq<Wid>, net: Network)
    requires !w.aborted
    ensures var w' := StaleLoop(w, r, ids, net);
            w.calls <= w'.calls && (w'.aborted <==> FatalSince(w', |w.calls|, net))
    decreases |ids|
  {
    if ids != [] {
      var init, x := ids[..|ids| - 1], ids[|ids| - 1];
      StaleLoopEnds(w, r, init, net);
      var before := StaleLoop(w, r, init, net);
      if !before.aborted {
        StaleStepCalls(before, r, x, net);
        SinceSplits(before, StaleStep(before, r, x, net), |w.calls|, net);
      }
    }
  }

  /** Whatever the network does, a round is aborted if and only if the details of a stored worker
      cannot be read, or a call of the round raises an exception, is a status call after an update
      that fails, or is a retrieval that fails. */
  lemma AbortedExact(w: World, r: Round, net: Network)
    ensures var w' := Synced(w, r, net);
            w'.aborted <==>
              || (exists i :: 0 <= i < |r.kv| && r.kv[i] !in r.info)
              || exists n :: |w.calls| <= n < |w'.calls| && Fatal(w'.calls[n], net(n))
  {
    var w0 := w.(aborted := false);
    var mid, w' := KvLoop(w0, r, r.kv, net), Synced(w, r, net);
    KvLoopEnds(w0, r, r.kv, net);
    if mid.aborted {
      assert r.onchain[..0] == [];
      StaleAborted(mid, r, r.onchain, 0, net);
    } else {
      StaleLoopEnds(mid, r, r.onchain, net);
      SinceSplits(mid, w', |w.calls|, net);
    }
    assert SomeUnread(r, r.kv) <==> exists i :: 0 <= i < |r.kv| && r.kv[i] !in r.info;
    assert FatalSince(w', |w.calls|, net) <==> exists n :: |w.calls| <= n < |w'.calls| && Fatal(w'.calls[n], net(n));
  }

  // ----- what a failure costs ---------------------------------------------------------------------

  lemma KvStepOutcome(w: World, r: Round, id: Wid, net: Network)
    requires !w.aborted && !KvStep(w, r, id, net).aborted && (id in r.onchain <==> id in w.chain)
    ensures var w', v := KvStep(w, r, id, net), ViewOf(w, id);
            ViewOf(w', id) == if Stored(r, id) && OwnSucceed(w', |w.calls|, net, id) then Activated(v, Info(r, id)) else v
  {
    if Stored(r, id) {
      var d := Info(r, id);
      if id !in r.onchain {
        RegisterOutcome(w, id, d, net);
      } else if Get(w.details, id) != Some(d) {
        UpdateOutcome(w, id, d, net);
      }
    }
  }

  lemma RegisterOutcome(w: World, id: Wid, d: string, net: Network)
    requires id !in w.chain
    ensures var w' := Registered(w, id, d, net);
            ViewOf(w', id) ==
            if OwnSucceed(w', |w.calls|, net, id) then View(Some(Entry(d, ACTIVE)), Some(d), Some(ACTIVE)) else ViewOf(w, id)
  {
    var w' := Registered(w, id, d, net);
    assert w'.calls[|w.calls|].id == id;
  }

  lemma UpdateOutcome(w: World, id: Wid, d: string, net: Network)
    requires id in w.chain && !w.aborted && !Updated(w, id, d, net).aborted
    ensures var w' := Updated(w, id, d, net);
            ViewOf(w', id) ==
            if OwnSucceed(w', |w.calls|, net, id) then View(Some(Entry(d, ACTIVE)), Some(d), Some(ACTIVE)) else ViewOf(w, id)
  {
    var w' := Updated(w, id, d, net);
    assert w'.calls[|w.calls|].id == id;
    assert |w'.calls| == |w.calls| + 2 ==> net(|w.calls|) == net(|w.calls| + 1) == Success;
  }

  lemma DecommissionOutcome(w: World, id: Wid, net: Network)
    requires id in w.chain
    ensures var w' := Decommissioned(w, id, net);
            ViewOf(w', id) ==
            if net(|w.calls|) == Success
            then View(Some(w.chain[id].(status := DECOMMISSIONED)), Get(w.details, id), Some(DECOMMISSIONED))
            else ViewOf(w, id)
  {
  }

  lemma RetrieveOutcome(w: World, id: Wid, net: Network)
    ensures var w1 := Invoke(w, Retrieve(id), net).0;
            w1.chain == w.chain && w1.details == w.details && w1.status == w.status && ViewOf(w1, id) == ViewOf(w, id)
  {
  }

  lemma StaleStepOutcome(w: World, r: Round, id: Wid, net: Network)
    requires !w.aborted && !StaleStep(w, r, id, net).aborted && id in w.chain && id !in r.kv
    ensures var w', v := StaleStep(w, r, id, net), ViewOf(w, id);
            ViewOf(w', id) == if OwnSucceed(w', |w.calls|, net, id) then Retired(v) else v
  {
    var w' := StaleStep(w, r, id, net);
    StaleStepCalls(w, r, id, net);
    if id in w.status {
      DecommissionOutcome(w, id, net);
      assert w'.calls[|w.calls|].id == id;
    } else {
      InvokeCalls(w, Retrieve(id), net);
      RetrieveOutcome(w, id, net);
      var w1 := Invoke(w, Retrieve(id), net).0;
      assert net(|w.calls|) == Success;
      if w.chain[id].status != DECOMMISSIONED {
        DecommissionOutcome(w1, id, net);
        assert w'.calls[|w.calls| + 1].id == id;
      }
    }
  }

  lemma OwnSplits(before: World, w: World, from: nat, net: Network, id: Wid)
    requires from <= |before.calls| && before.calls <= w.calls
    ensures OwnSucceed(w, from, net, id) <==> OwnSucceed(before, from, net, id) && OwnSucceed(w, |before.calls|, net, id)
    ensures NoneAbout(w, from, id) <==> NoneAbout(before, from, id) && NoneAbout(w, |before.calls|, id)
  {
    if OwnSucceed(w, from, net, id) {
      forall n | from <= n < |before.calls| && before.calls[n].id == id ensures net(n) == Success {
        assert w.calls[n].id == id;
      }
    }
    if OwnSucceed(before, from, net, id) && OwnSucceed(w, |before.calls|, net, id) {
      forall n | from <= n < |w.calls| && w.calls[n].id == id ensures net(n) == Success {
        assert n < |before.calls| ==> before.calls[n].id == id;
      }
    }
    NoneSplits(before, w, from, id);
  }

  lemma NoneSplits(before: World, w: World, from: nat, id: Wid)
    requires from <= |before.calls| && before.calls <= w.calls
    ensures NoneAbout(w, from, id) <==> NoneAbout(before, from, id) && NoneAbout(w, |before.calls|, id)
  {
    if NoneAbout(w, from, id) {
      forall n | from <= n < |before.calls| ensures before.calls[n].id != id {
        assert w.calls[n].id != id;
      }
    }
    if NoneAbout(before, from, id) && NoneAbout(w, |before.calls|, id) {
      forall n | from <= n < |w.calls| ensures w.calls[n].id != id {
        assert n < |before.calls| ==> before.calls[n].id != id;
      }
    }
  }

  lemma {:induction false} KvLoopOutcome(w: World, r: Round, ids: seq<Wid>, net: Network, id: Wid)
    requires !w.aborted && !KvLoop(w, r, ids, net).aborted && DistinctIds(ids)
    requires id in r.onchain <==> id in w.chain
    ensures var w', v := KvLoop(w, r, ids, net), ViewOf(w, id);
            && w.calls <= w'.calls && (id !in ids ==> NoneAbout(w', |w.calls|, id))
            && ViewOf(w', id) ==
               if id in ids && Stored(r, id) && OwnSucceed(w', |w.calls|, net, id) then Activated(v, Info(r, id)) else v
    decreases |ids|
  {
    if ids != [] {
      var init, x := ids[..|ids| - 1], ids[|ids| - 1];
      assert ids == init + [x] && x !in init;
      var before, w' := KvLoop(w, r, init, net), KvLoop(w, r, ids, net);
      KvLoopOutcome(w, r, init, net, id);
      KvStepCalls(before, r, x, net);
      OwnSplits(before, w', |w.calls|, net, id);
      if x == id {
        assert NoneAbout(before, |w.calls|, id);
        assert Get(before.chain, id) == ViewOf(before, id).entry == ViewOf(w, id).entry == Get(w.chain, id);
        KvStepOutcome(before, r, id, net);
      } else {
        KvStepElsewhere(before, r, x, net, id);
        assert NoneAbout(w', |before.calls|, id);
      }
    }
  }

  lemma {:induction false} StaleLoopOutcome(w: World, r: Round, ids: seq<Wid>, net: Network, id: Wid)
    requires !w.aborted && !StaleLoop(w, r, ids, net).aborted && DistinctIds(ids)
    requires id in ids && id !in r.kv ==> id in w.chain
    ensures var w', v := StaleLoop(w, r, ids, net), ViewOf(w, id);
            && w.calls <= w'.calls && (id !in ids || id in r.kv ==> NoneAbout(w', |w.calls|, id))
            && ViewOf(w', id) ==
               if id in ids && id !in r.kv && OwnSucceed(w', |w.calls|, net, id) then Retired(v) else v
    decreases |ids|
  {
    if ids != [] {
      var init, x := ids[..|ids| - 1], ids[|ids| - 1];
      assert ids == init + [x] && x !in init;
      var before, w' := StaleLoop(w, r, init, net), StaleLoop(w, r, ids, net);
      StaleLoopOutcome(w, r, init, net, id);
      StaleStepCalls(before, r, x, net);
      OwnSplits(before, w', |w.calls|, net, id);
      if x == id {
        assert NoneAbout(before, |w.calls|, id);
        assert Get(before.chain, id) == ViewOf(before, id).entry == ViewOf(w, id).entry == Get(w.chain, id);
        if id !in r.kv {
          StaleStepOutcome(before, r, id, net);
        }
      } else {
        StaleStepElsewhere(before, r, x, net, id);
        assert NoneAbout(w', |before.calls|, id);
      }
    }
  }

  /** What a round with only successful calls makes of a worker. */
  function Intended(w: World, r: Round, id: Wid): View {
    var v := ViewOf(w, id);
    if id in r.kv then (if Stored(r, id) then Activated(v, Info(r, id)) else v)
    else if id in w.chain then Retired(v) else v
  }

  /** In a round that is not aborted each worker whose own calls succeed gets what is intended for it,
      and each other worker stays as it was, whichever calls about others fail. */
  lemma RoundOutcome(w: World, r: Round, net: Network, id: Wid)
    requires !Synced(w, r, net).aborted && DistinctIds(r.kv) && DistinctIds(r.onchain)
    requires id in r.onchain <==> id in w.chain
    ensures var w' := Synced(w, r, net);
            ViewOf(w', id) == if OwnSucceed(w', |w.calls|, net, id) then Intended(w, r, id) else ViewOf(w, id)
  {
    var w0 := w.(aborted := false);
    var mid, w' := KvLoop(w0, r, r.kv, net), Synced(w, r, net);
    KvLoopNotAborted(w0, r, net);
    SameView(w0, w, id);
    KvLoopOutcome(w0, r, r.kv, net, id);
    if id !in r.kv {
      SameView(mid, w, id);
    }
    StaleLoopOutcome(mid, r, r.onchain, net, id);
    OwnSplits(mid, w', |w.calls|, net, id);
    NoneSucceed(mid, |w.calls|, net, id);
    NoneSucceed(w', |mid.calls|, net, id);
  }

  lemma KvLoopNotAborted(w: World, r: Round, net: Network)
    requires !StaleLoop(KvLoop(w, r, r.kv, net), r, r.onchain, net).aborted
    ensures !KvLoop(w, r, r.kv, net).aborted
  {
    var mid := KvLoop(w, r, r.kv, net);
    if mid.aborted {
      assert r.onchain[..0] == [];
      StaleAborted(mid, r, r.onchain, 0, net);
    }
  }

  lemma SameView(w: World, w': World, id: Wid)
    requires ViewOf(w, id) == ViewOf(w', id)
    ensures id in w.chain <==> id in w'.chain
  {
    assert ViewOf(w, id).entry == Get(w.chain, id) && ViewOf(w', id).entry == Get(w'.chain, id);
  }

  lemma NoneSucceed(w: World, from: nat, net: Network, id: Wid)
    ensures NoneAbout(w, from, id) ==> OwnSucceed(w, from, net, id)
  {
  }

  /** What such a round writes: a stored worker that is not cached with its details is active on the
      chain, and so in both caches; one that is not stored is decommissioned, and is so in the
      status cache unless the chain already said so. */
  lemma RoundWrites(w: World, r: Round, net: Network, id: Wid)
    requires !Synced(w, r, net).aborted && DistinctIds(r.kv) && DistinctIds(r.onchain)
    requires id in r.onchain <==> id in w.chain
    requires OwnSucceed(Synced(w, r, net), |w.calls|, net, id)
    ensures var w' := Synced(w, r, net);
            && (id in r.kv && Stored(r, id) && (id !in w.chain || Get(w.details, id) != Some(Info(r, id))) ==>
                  && Get(w'.chain, id) == Some(Entry(Info(r, id), ACTIVE))
                  && Get(w'.details, id) == Some(Info(r, id)) && Get(w'.status, id) == Some(ACTIVE))
            && (id !in r.kv && id in w.chain ==>
                  && Get(w'.chain, id) == Some(Entry(w.chain[id].details, DECOMMISSIONED))
                  && Get(w'.details, id) == Get(w.details, id)
                  && Get(w'.status, id) == if id !in w.status && w.chain[id].status == DECOMMISSIONED then None
                                           else Some(DECOMMISSIONED))
  {
    var w' := Synced(w, r, net);
    RoundOutcome(w, r, net, id);
    assert ViewOf(w', id) == View(Get(w'.chain, id), Get(w'.details, id), Get(w'.status, id));
    assert ViewOf(w, id) == View(Get(w.chain, id), Get(w.details, id), Get(w.status, id));
  }

  /** So `RoundExact` holds of every worker whose own calls succeed, and a failed call leaves its
      worker for the next round with chain and caches as they were. */
  lemma RoundExactDespiteFailures(w: World, r: Round, net: Network, id: Wid)
    requires !Synced(w, r, net).aborted && DistinctIds(r.kv) && DistinctIds(r.onchain)
    requires (id in r.onchain <==> id in w.chain) && (id in r.kv ==> Stored(r, id)) && CoherentAt(w, id)
    ensures var w' := Synced(w, r, net);
            if OwnSucceed(w', |w.calls|, net, id) then
              UpToDate(w', r, id) <==>
                !(id in r.kv && Get(w.details, id) == Some(Info(r, id)) && id in w.chain && w.chain[id].status != ACTIVE)
            else
              Get(w'.chain, id) == Get(w.chain, id) && Get(w'.details, id) == Get(w.details, id)
              && Get(w'.status, id) == Get(w.status, id)
  {
    var w' := Synced(w, r, net);
    RoundOutcome(w, r, net, id);
    assert ViewOf(w', id).entry == Get(w'.chain, id) && ViewOf(w, id).entry == Get(w.chain, id);
  }
}
