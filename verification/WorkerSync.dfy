/** Synchronising the workers of the key-value store to the blockchain registry.

The connector keeps two caches, of the details and of the status it last wrote
for a worker, and uses them to leave out contract calls.  Any call may fail, or
raise an exception and abort the round; a call that does so has no effect on
the chain.
*/
module WorkerSync {
  import opened Options

  datatype Wid = Wid(text: string)
  datatype Status = ACTIVE | OFFLINE | DECOMMISSIONED | COMPROMISED
  datatype Entry = Entry(details: string, status: Status)

  datatype Call =
    | Register(id: Wid, details: string)
    | UpdateDetails(id: Wid, details: string)
    | SetStatus(id: Wid, status: Status)
    | Retrieve(id: Wid)

  datatype Answer = Success | Failure | Raise

  /** The answer the n-th call gets, if the contract admits it. */
  type Network = nat -> Answer

  /** The chain, the two caches, the calls made so far, and whether the round was aborted. */
  datatype World = World(
    chain: map<Wid, Entry>, details: map<Wid, string>, status: map<Wid, Status>,
    calls: seq<Call>, aborted: bool)

  /** What one round sees: the workers in the key-value store, their stored details (a missing
      key is a failed retrieval, `None` an empty one), and the ids the chain lookup returned. */
  datatype Round = Round(kv: seq<Wid>, info: map<Wid, Option<string>>, onchain: seq<Wid>)

  // ----- the contract ---------------------------------------------------------------------------

  predicate Admits(chain: map<Wid, Entry>, call: Call) {
    match call
    case Register(id, _) => id !in chain
    case UpdateDetails(id, _) => id in chain
    case SetStatus(id, _) => id in chain
    case Retrieve(_) => true
  }

  function Effect(chain: map<Wid, Entry>, call: Call): map<Wid, Entry>
    requires Admits(chain, call)
  {
    match call
    case Register(id, d) => chain[id := Entry(d, ACTIVE)]
    case UpdateDetails(id, d) => chain[id := chain[id].(details := d)]
    case SetStatus(id, s) => chain[id := chain[id].(status := s)]
    case Retrieve(_) => chain
  }

  /** One call and whether it succeeded. */
  function Invoke(w: World, call: Call, net: Network): (World, bool) {
    var w', answer := w.(calls := w.calls + [call]), net(|w.calls|);
    if answer.Raise? then (w'.(aborted := true), false)
    else if answer.Failure? || !Admits(w.chain, call) then (w', false)
    else (w'.(chain := Effect(w.chain, call)), true)
  }

  // ----- one round ---------------------------------------------------------------------------------

  function Updated(w: World, id: Wid, d: string, net: Network): World {
    var (w1, ok) := Invoke(w, UpdateDetails(id, d), net);
    if !ok then w1
    else
      var (w2, active) := Invoke(w1.(details := w1.details[id := d]), SetStatus(id, ACTIVE), net);
      if active then w2.(status := w2.status[id := ACTIVE]) else w2.(aborted := true)
  }

  function Registered(w: World, id: Wid, d: string, net: Network): World {
    var (w1, ok) := Invoke(w, Register(id, d), net);
    if ok then w1.(details := w1.details[id := d], status := w1.status[id := ACTIVE]) else w1
  }

  function Decommissioned(w: World, id: Wid, net: Network): World {
    var (w1, ok) := Invoke(w, SetStatus(id, DECOMMISSIONED), net);
    if ok then w1.(status := w1.status[id := DECOMMISSIONED]) else w1
  }

  /** A worker of the key-value store. */
  function KvStep(w: World, r: Round, id: Wid, net: Network): World {
    if w.aborted then w
    else if id !in r.info then w.(aborted := true)
    else if r.info[id].None? then w
    else
      var d := r.info[id].value;
      if id !in r.onchain then Registered(w, id, d, net)
      else if id in w.details && w.details[id] == d then w
      else Updated(w, id, d, net)
  }

  /** A worker of the chain. */
  function StaleStep(w: World, r: Round, id: Wid, net: Network): World {
    if w.aborted || id in r.kv then w
    else if id in w.status then Decommissioned(w, id, net)
    else
      var (w1, ok) := Invoke(w, Retrieve(id), net);
      if !ok then w1.(aborted := true)
      else if id in w1.chain && w1.chain[id].status == DECOMMISSIONED then w1
      else Decommissioned(w1, id, net)
  }

  function KvLoop(w: World, r: Round, ids: seq<Wid>, net: Network): World {
    if ids == [] then w else KvStep(KvLoop(w, r, ids[..|ids| - 1], net), r, ids[|ids| - 1], net)
  }

  function StaleLoop(w: World, r: Round, ids: seq<Wid>, net: Network): World {
    if ids == [] then w else StaleStep(StaleLoop(w, r, ids[..|ids| - 1], net), r, ids[|ids| - 1], net)
  }

  function Synced(w: World, r: Round, net: Network): World {
    StaleLoop(KvLoop(w.(aborted := false), r, r.kv, net), r, r.onchain, net)
  }

  function SyncRuns(w: World, rs: seq<Round>, net: Network): World {
    if rs == [] then w else Synced(SyncRuns(w, rs[..|rs| - 1], net), rs[|rs| - 1], net)
  }

  // ----- the connector -------------------------------------------------------------------------------

  class Ledger {
    const net: Network
    var chain: map<Wid, Entry>
    var calls: seq<Call>

    constructor (net: Network, chain: map<Wid, Entry>)
      ensures this.net == net && this.chain == chain && calls == []
    {
      this.net, this.chain, this.calls := net, chain, [];
    }

    method Send(call: Call) returns (answer: Answer)
      modifies this
      ensures var before := World(old(chain), map[], map[], old(calls), false);
              && World(chain, map[], map[], calls, answer.Raise?) == Invoke(before, call, net).0
              && (answer.Success? <==> Invoke(before, call, net).1)
      ensures calls == old(calls) + [call] && (answer.Raise? <==> net(|old(calls)|).Raise?)
      ensures answer.Success? <==>
                && net(|old(calls)|).Success?
                && (call.Register? ==> call.id !in old(chain))
                && (call.UpdateDetails? || call.SetStatus? ==> call.id in old(chain))
      ensures !answer.Success? ==> chain == old(chain)
      ensures answer.Success? ==>
                chain == match call
                         case Register(id, d) => old(chain)[id := Entry(d, ACTIVE)]
                         case UpdateDetails(id, d) => old(chain)[id := Entry(d, old(chain)[id].status)]
                         case SetStatus(id, s) => old(chain)[id := Entry(old(chain)[id].details, s)]
                         case Retrieve(_) => old(chain)
    {
      answer := net(|calls|);
      calls := calls + [call];
      if answer.Success? {
        if Admits(chain, call) {
          chain := Effect(chain, call);
        } else {
          answer := Failure;
        }
      }
    }
  }

  class WorkerDelegate {
    const ledger: Ledger
    var details: map<Wid, string>
    var status: map<Wid, Status>

    constructor (ledger: Ledger)
      ensures this.ledger == ledger && details == map[] && status == map[]
    {
      this.ledger, details, status := ledger, map[], map[];
    }

    ghost function Now(aborted: bool): World
      reads this, ledger
    {
      World(ledger.chain, details, status, ledger.calls, aborted)
    }

    method AddOrUpdate(r: Round, id: Wid) returns (aborted: bool)
      modifies this, ledger
      ensures Now(aborted) == KvStep(old(Now(false)), r, id, ledger.net)
    {
      if id !in r.info {
        return true;
      }
      if r.info[id].None? {
        return false;
      }
      var d := r.info[id].value;
      var answer;
      if id in r.onchain {
        if id !in details || details[id] != d {
          answer := ledger.Send(UpdateDetails(id, d));
          if answer.Success? {
            details := details[id := d];
            answer := ledger.Send(SetStatus(id, ACTIVE));
            if !answer.Success? {
              return true;
            }
            status := status[id := ACTIVE];
          }
          return answer.Raise?;
        }
        return false;
      }
      answer := ledger.Send(Register(id, d));
      if answer.Success? {
        details := details[id := d];
        status := status[id := ACTIVE];
      }
      return answer.Raise?;
    }

    method Retire(r: Round, id: Wid) returns (aborted: bool)
      modifies this, ledger
      ensures Now(aborted) == StaleStep(old(Now(false)), r, id, ledger.net)
    {
      if id in r.kv {
        return false;
      }
      var answer;
      if id !in status {
        answer := ledger.Send(Retrieve(id));
        if !answer.Success? {
          return true;
        }
        if id in ledger.chain && ledger.chain[id].status == DECOMMISSIONED {
          return false;
        }
      }
      answer := ledger.Send(SetStatus(id, DECOMMISSIONED));
      if answer.Success? {
        status := status[id := DECOMMISSIONED];
      }
      return answer.Raise?;
    }

    method AddUpdateWorkerToChain(r: Round) returns (aborted: bool)
      modifies this, ledger
      ensures Now(aborted) == Synced(old(Now(false)), r, ledger.net)
    {
      aborted := AddOrUpdateAll(r);
      if aborted {
        StaleAborted(Now(true), r, r.onchain, 0, ledger.net);
        return;
      }
      aborted := RetireAll(r);
    }

    method AddOrUpdateAll(r: Round) returns (aborted: bool)
      modifies this, ledger
      ensures Now(aborted) == KvLoop(old(Now(false)), r, r.kv, ledger.net)
    {
      aborted := false;
      var i := 0;
      while i < |r.kv| && !aborted
        invariant 0 <= i <= |r.kv|
        invariant Now(aborted) == KvLoop(old(Now(false)), r, r.kv[..i], ledger.net)
      {
        assert r.kv[..i + 1][..i] == r.kv[..i];
        aborted := AddOrUpdate(r, r.kv[i]);
        i := i + 1;
      }
      if aborted {
        KvAborted(old(Now(false)), r, r.kv, i, ledger.net);
      }
      assert r.kv[..|r.kv|] == r.kv;
    }

    method RetireAll(r: Round) returns (aborted: bool)
      modifies this, ledger
      ensures Now(aborted) == StaleLoop(old(Now(false)), r, r.onchain, ledger.net)
    {
      aborted := false;
      var i := 0;
      while i < |r.onchain| && !aborted
        invariant 0 <= i <= |r.onchain|
        invariant Now(aborted) == StaleLoop(old(Now(false)), r, r.onchain[..i], ledger.net)
      {
        assert r.onchain[..i + 1][..i] == r.onchain[..i];
        aborted := Retire(r, r.onchain[i]);
        i := i + 1;
      }
      if aborted {
        StaleAborted(old(Now(false)), r, r.onchain, i, ledger.net);
      }
      assert r.onchain[..|r.onchain|] == r.onchain;
    }
  }

  lemma {:induction false} KvAborted(w: World, r: Round, ids: seq<Wid>, i: nat, net: Network)
    requires i <= |ids| && KvLoop(w, r, ids[..i], net).aborted
    ensures KvLoop(w, r, ids, net) == KvLoop(w, r, ids[..i], net)
    decreases |ids|
  {
    if i < |ids| {
      assert ids[..|ids| - 1][..i] == ids[..i];
      KvAborted(w, r, ids[..|ids| - 1], i, net);
    } else {
      assert ids[..i] == ids;
    }
  }

  lemma {:induction false} StaleAborted(w: World, r: Round, ids: seq<Wid>, i: nat, net: Network)
    requires i <= |ids| && StaleLoop(w, r, ids[..i], net).aborted
    ensures StaleLoop(w, r, ids, net) == StaleLoop(w, r, ids[..i], net)
    decreases |ids|
  {
    if i < |ids| {
      assert ids[..|ids| - 1][..i] == ids[..i];
      StaleAborted(w, r, ids[..|ids| - 1], i, net);
    } else {
      assert ids[..i] == ids;
    }
  }

  // ----- the caches never lie ----------------------------------------------------------------------

  predicate CoherentAt(w: World, id: Wid) {
    && (id in w.details ==> id in w.chain && w.chain[id].details == w.details[id])
    && (id in w.status ==> id in w.chain && w.chain[id].status == w.status[id])
  }

  /** Every cached value is the one on the chain. */
  ghost predicate Coherent(w: World) {
    forall id :: CoherentAt(w, id)
  }

  lemma KvStepCoherent(w: World, r: Round, x: Wid, net: Network, id: Wid)
    requires CoherentAt(w, id)
    ensures CoherentAt(KvStep(w, r, x, net), id)
  {
  }

  lemma {:induction false} KvLoopCoherent(w: World, r: Round, ids: seq<Wid>, net: Network, id: Wid)
    requires CoherentAt(w, id)
    ensures CoherentAt(KvLoop(w, r, ids, net), id)
  {
    if ids != [] {
      KvLoopCoherent(w, r, ids[..|ids| - 1], net, id);
      KvStepCoherent(KvLoop(w, r, ids[..|ids| - 1], net), r, ids[|ids| - 1], net, id);
    }
  }

  lemma StaleStepCoherent(w: World, r: Round, x: Wid, net: Network, id: Wid)
    requires CoherentAt(w, id)
    ensures CoherentAt(StaleStep(w, r, x, net), id)
  {
  }

  lemma {:induction false} StaleLoopCoherent(w: World, r: Round, ids: seq<Wid>, net: Network, id: Wid)
    requires CoherentAt(w, id)
    ensures CoherentAt(StaleLoop(w, r, ids, net), id)
  {
    if ids != [] {
      StaleLoopCoherent(w, r, ids[..|ids| - 1], net, id);
      StaleStepCoherent(StaleLoop(w, r, ids[..|ids| - 1], net), r, ids[|ids| - 1], net, id);
    }
  }

  lemma SyncedCoherent(w: World, r: Round, net: Network)
    requires Coherent(w)
    ensures Coherent(Synced(w, r, net))
  {
    forall id ensures CoherentAt(Synced(w, r, net), id) {
      assert CoherentAt(w, id);
      assert CoherentAt(w.(aborted := false), id);
      KvLoopCoherent(w.(aborted := false), r, r.kv, net, id);
      StaleLoopCoherent(KvLoop(w.(aborted := false), r, r.kv, net), r, r.onchain, net, id);
    }
  }

  /** Whatever the rounds see and whichever calls fail or abort them, every entry of both caches
      equals what the chain stores. */
  lemma {:induction false} CachesCoherent(w: World, rs: seq<Round>, net: Network)
    requires Coherent(w)
    ensures Coherent(SyncRuns(w, rs, net))
  {
    if rs != [] {
      CachesCoherent(w, rs[..|rs| - 1], net);
      SyncedCoherent(SyncRuns(w, rs[..|rs| - 1], net), rs[|rs| - 1], net);
    }
  }

  // ----- what a successful round does to one worker --------------------------------------------------

  datatype View = View(entry: Option<Entry>, details: Option<string>, status: Option<Status>)

  function Get<V>(m: map<Wid, V>, id: Wid): Option<V> {
    if id in m then Some(m[id]) else None
  }

  function ViewOf(w: World, id: Wid): View {
    View(Get(w.chain, id), Get(w.details, id), Get(w.status, id))
  }

  /** A worker stored with details `d`: left alone when it is on the chain and cached with them. */
  function Activated(v: View, d: string): View {
    if v.entry.Some? && v.details == Some(d) then v
    else View(Some(Entry(d, ACTIVE)), Some(d), Some(ACTIVE))
  }

  /** A worker on the chain but not stored any more. */
  function Retired(v: View): View
    requires v.entry.Some?
  {
    if v.status.None? && v.entry.value.status == DECOMMISSIONED then v
    else View(Some(v.entry.value.(status := DECOMMISSIONED)), v.details, Some(DECOMMISSIONED))
  }

  predicate DistinctIds(ids: seq<Wid>) {
    forall i, j :: 0 <= i < j < |ids| ==> ids[i] != ids[j]
  }

  ghost predicate AllSucceed(net: Network) {
    forall n :: net(n) == Success
  }

  predicate Stored(r: Round, id: Wid) {
    id in r.info && r.info[id].Some?
  }

  function Info(r: Round, id: Wid): string {
    if Stored(r, id) then r.info[id].value else ""
  }

  /** Details of every listed worker can be read, and the chain lookup returned every registered id. */
  ghost predicate Good(w: World, r: Round) {
    && DistinctIds(r.kv) && (forall i :: 0 <= i < |r.kv| ==> Stored(r, r.kv[i]))
    && DistinctIds(r.onchain) && (forall id :: id in r.onchain <==> id in w.chain)
  }

  lemma CallElsewhere(w: World, call: Call, net: Network, id: Wid)
    requires call.id != id
    ensures ViewOf(Invoke(w, call, net).0, id) == ViewOf(w, id)
  {
  }

  lemma UpdateElsewhere(w: World, x: Wid, d: string, net: Network, id: Wid)
    requires x != id
    ensures ViewOf(Updated(w, x, d, net), id) == ViewOf(w, id)
  {
    CallElsewhere(w, UpdateDetails(x, d), net, id);
    var w1 := Invoke(w, UpdateDetails(x, d), net).0;
    CallElsewhere(w1.(details := w1.details[x := d]), SetStatus(x, ACTIVE), net, id);
  }

  lemma KvStepElsewhere(w: World, r: Round, x: Wid, net: Network, id: Wid)
    requires x != id
    ensures ViewOf(KvStep(w, r, x, net), id) == ViewOf(w, id)
  {
    CallElsewhere(w, Register(x, Info(r, x)), net, id);
    UpdateElsewhere(w, x, Info(r, x), net, id);
  }

  lemma StaleStepElsewhere(w: World, r: Round, x: Wid, net: Network, id: Wid)
    requires x != id
    ensures ViewOf(StaleStep(w, r, x, net), id) == ViewOf(w, id)
  {
    CallElsewhere(w, SetStatus(x, DECOMMISSIONED), net, id);
    CallElsewhere(w, Retrieve(x), net, id);
    CallElsewhere(Invoke(w, Retrieve(x), net).0, SetStatus(x, DECOMMISSIONED), net, id);
  }

  lemma KvStepHere(w: World, r: Round, id: Wid, net: Network)
    requires AllSucceed(net) && !w.aborted && Stored(r, id) && (id in r.onchain <==> id in w.chain)
    ensures var w' := KvStep(w, r, id, net);
            !w'.aborted && ViewOf(w', id) == Activated(ViewOf(w, id), Info(r, id))
  {
  }

  lemma StaleStepHere(w: World, r: Round, id: Wid, net: Network)
    requires AllSucceed(net) && !w.aborted && id !in r.kv && id in w.chain
    ensures var w' := StaleStep(w, r, id, net);
            !w'.aborted && ViewOf(w', id) == Retired(ViewOf(w, id))
  {
  }

  lemma {:induction false} KvLoopView(w: World, r: Round, ids: seq<Wid>, net: Network, id: Wid)
    requires AllSucceed(net) && !w.aborted && DistinctIds(ids)
    requires forall i :: 0 <= i < |ids| ==> Stored(r, ids[i])
    requires forall x :: x in r.onchain <==> x in w.chain
    ensures var w' := KvLoop(w, r, ids, net);
            && !w'.aborted
            && ViewOf(w', id) == if id in ids then Activated(ViewOf(w, id), Info(r, id)) else ViewOf(w, id)
    decreases |ids|
  {
    if ids != [] {
      var init, x := ids[..|ids| - 1], ids[|ids| - 1];
      assert ids == init + [x] && x !in init;
      KvLoopView(w, r, init, net, id);
      KvLoopView(w, r, init, net, x);
      var before := KvLoop(w, r, init, net);
      assert Get(before.chain, x) == Get(w.chain, x);
      KvStepHere(before, r, x, net);
      if x != id {
        KvStepElsewhere(before, r, x, net, id);
      }
    }
  }

  lemma {:induction false} StaleLoopView(w: World, r: Round, ids: seq<Wid>, net: Network, id: Wid)
    requires AllSucceed(net) && !w.aborted && DistinctIds(ids)
    requires forall i :: 0 <= i < |ids| ==> ids[i] in w.chain
    ensures var w' := StaleLoop(w, r, ids, net);
            && !w'.aborted
            && ViewOf(w', id) == if id in ids && id !in r.kv then Retired(ViewOf(w, id)) else ViewOf(w, id)
    decreases |ids|
  {
    if ids != [] {
      var init, x := ids[..|ids| - 1], ids[|ids| - 1];
      assert ids == init + [x] && x !in init;
      StaleLoopView(w, r, init, net, id);
      StaleLoopView(w, r, init, net, x);
      var before := StaleLoop(w, r, init, net);
      assert Get(before.chain, x) == Get(w.chain, x);
      if x !in r.kv {
        StaleStepHere(before, r, x, net);
      }
      if x != id {
        StaleStepElsewhere(before, r, x, net, id);
      }
    }
  }

  /** One all-success round, seen from one worker. */
  lemma SyncedView(w: World, r: Round, net: Network, id: Wid)
    requires AllSucceed(net) && Good(w, r)
    ensures var w', v := Synced(w, r, net), ViewOf(w, id);
            && !w'.aborted
            && ViewOf(w', id) == if id in r.kv then Activated(v, Info(r, id))
                                 else if id in w.chain then Retired(v) else v
  {
    var w0 := w.(aborted := false);
    var mid := KvLoop(w0, r, r.kv, net);
    KvLoopView(w0, r, r.kv, net, id);
    forall i | 0 <= i < |r.onchain| ensures r.onchain[i] in mid.chain {
      assert r.onchain[i] in w.chain;
      KvLoopView(w0, r, r.kv, net, r.onchain[i]);
      assert Get(mid.chain, r.onchain[i]).Some?;
    }
    StaleLoopView(mid, r, r.onchain, net, id);
  }

  // ----- convergence over runs ----------------------------------------------------------------------

  predicate UpToDate(w: World, r: Round, id: Wid) {
    if id in r.kv then Get(w.chain, id) == Some(Entry(Info(r, id), ACTIVE))
    else id in w.chain ==> w.chain[id].status == DECOMMISSIONED
  }

  /** A worker is left out of date by an all-success round exactly when its stored details are
      the cached ones and the chain does not have it as active. */
  lemma RoundExact(w: World, r: Round, net: Network, id: Wid)
    requires AllSucceed(net) && Good(w, r) && Coherent(w)
    ensures UpToDate(Synced(w, r, net), r, id) <==>
            !(id in r.kv && Get(w.details, id) == Some(Info(r, id)) && id in w.chain && w.chain[id].status != ACTIVE)
  {
    SyncedView(w, r, net, id);
    assert CoherentAt(w, id);
    assert id in r.kv ==> Stored(r, id);
    var v := ViewOf(Synced(w, r, net), id);
    assert v.entry == Get(Synced(w, r, net).chain, id);
  }

  /** Details with which a worker was last stored. */
  function LastSeen(rs: seq<Round>, id: Wid): Option<string> {
    if rs == [] then None
    else
      var r := rs[|rs| - 1];
      if id in r.kv then Some(Info(r, id)) else LastSeen(rs[..|rs| - 1], id)
  }

  predicate InLast(rs: seq<Round>, id: Wid) {
    rs != [] && id in rs[|rs| - 1].kv
  }

  /** The stored worker came back with other details than it left with, or never left since. */
  predicate Fine(rs: seq<Round>, id: Wid)
    requires InLast(rs, id)
  {
    var init, r := rs[..|rs| - 1], rs[|rs| - 1];
    || LastSeen(init, id) != Some(Info(r, id))
    || (InLast(init, id) && Fine(init, id))
  }

  ghost predicate GoodRun(w: World, rs: seq<Round>, net: Network) {
    rs != [] ==> GoodRun(w, rs[..|rs| - 1], net) && Good(SyncRuns(w, rs[..|rs| - 1], net), rs[|rs| - 1])
  }

  /** What the rounds so far determine about one worker. */
  predicate Tracked(w: World, rs: seq<Round>, id: Wid) {
    && Get(w.details, id) == LastSeen(rs, id)
    && (id in w.details ==> id in w.chain && w.chain[id].details == w.details[id])
    && (rs != [] && !InLast(rs, id) && id in w.chain ==> w.chain[id].status == DECOMMISSIONED)
    && (InLast(rs, id) ==> id in w.chain && Get(w.details, id) == Some(Info(rs[|rs| - 1], id))
                           && (w.chain[id].status == ACTIVE <==> Fine(rs, id)))
  }

  lemma TrackedStep(w: World, rs: seq<Round>, r: Round, net: Network, id: Wid)
    requires AllSucceed(net) && Good(w, r)
    requires Tracked(w, rs, id)
    ensures Tracked(Synced(w, r, net), rs + [r], id)
  {
    assert (rs + [r])[..|rs|] == rs;
    SyncedView(w, r, net, id);
    var w' := Synced(w, r, net);
    assert ViewOf(w', id).entry == Get(w'.chain, id) && ViewOf(w', id).details == Get(w'.details, id);
    assert ViewOf(w, id).entry == Get(w.chain, id) && ViewOf(w, id).details == Get(w.details, id);
  }

  lemma {:induction false} RunsTracked(w: World, rs: seq<Round>, net: Network, id: Wid)
    requires AllSucceed(net) && w.details == map[] && GoodRun(w, rs, net)
    ensures Tracked(SyncRuns(w, rs, net), rs, id)
  {
    if rs != [] {
      var init, r := rs[..|rs| - 1], rs[|rs| - 1];
      RunsTracked(w, init, net, id);
      TrackedStep(SyncRuns(w, init, net), init, r, net, id);
      assert init + [r] == rs;
    }
  }

  /** After any run of all-success rounds every worker that is not stored is decommissioned, and a
      stored one is active with its details exactly when it did not come back with the details it
      left with. */
  lemma ConvergesIff(w: World, rs: seq<Round>, net: Network, id: Wid)
    requires AllSucceed(net) && w.details == map[] && GoodRun(w, rs, net) && rs != []
    ensures UpToDate(SyncRuns(w, rs, net), rs[|rs| - 1], id) <==> (InLast(rs, id) ==> Fine(rs, id))
  {
    RunsTracked(w, rs, net, id);
  }

  /** No worker that left the store comes back with the details it left with. */
  ghost predicate NoReturn(rs: seq<Round>) {
    forall n, id :: 0 < n <= |rs| && InLast(rs[..n], id) ==> Kept(rs, n, id)
  }

  predicate Kept(rs: seq<Round>, n: nat, id: Wid)
    requires 0 < n <= |rs|
  {
    InLast(rs[..n - 1], id) || LastSeen(rs[..n - 1], id) != Some(Info(rs[n - 1], id))
  }

  lemma {:induction false} NoReturnIsFine(rs: seq<Round>, n: nat, id: Wid)
    requires NoReturn(rs) && 0 < n <= |rs| && InLast(rs[..n], id)
    ensures Fine(rs[..n], id)
  {
    assert Kept(rs, n, id);
    assert rs[..n][..n - 1] == rs[..n - 1];
    if InLast(rs[..n - 1], id) {
      NoReturnIsFine(rs, n - 1, id);
    }
  }

  /** Then every all-success round leaves every worker up to date. */
  lemma Converges(w: World, rs: seq<Round>, net: Network, id: Wid)
    requires AllSucceed(net) && w.details == map[] && GoodRun(w, rs, net) && rs != [] && NoReturn(rs)
    ensures UpToDate(SyncRuns(w, rs, net), rs[|rs| - 1], id)
  {
    ConvergesIff(w, rs, net, id);
    assert rs[..|rs|] == rs;
    if InLast(rs, id) {
      NoReturnIsFine(rs, |rs|, id);
    }
  }

  /** A worker that leaves for one round and returns unchanged stays decommissioned. */
  lemma ReturningWorkerStaysRetired(net: Network)
    requires AllSucceed(net)
    ensures var id, w := Wid("w"), World(map[], map[], map[], [], false);
            var info := map[id := Some("d")];
            var joins, leaves, back := Round([id], info, []), Round([], info, [id]), Round([id], info, [id]);
            var w1 := Synced(w, joins, net);
            var w2 := Synced(w1, leaves, net);
            var w3 := Synced(w2, back, net);
            && Good(w, joins) && Good(w1, leaves) && Good(w2, back)
            && w1.chain == map[id := Entry("d", ACTIVE)]
            && w3.chain == map[id := Entry("d", DECOMMISSIONED)]
  {
    var id, w := Wid("w"), World(map[], map[], map[], [], false);
    var info := map[id := Some("d")];
    SoloJoins(w, Round([id], info, []), id, net);
    var w1 := Registered(w, id, "d", net);
    SoloLeaves(w1, Round([], info, [id]), id, net);
    SoloReturns(Decommissioned(w1, id, net), Round([id], info, [id]), id, net);
  }

  lemma SoloJoins(w: World, r: Round, id: Wid, net: Network)
    requires !w.aborted && r.kv == [id] && r.onchain == [] && Stored(r, id)
    ensures Synced(w, r, net) == Registered(w, id, Info(r, id), net)
  {
    assert [id][..0] == [] && w.(aborted := false) == w;
    assert KvLoop(w, r, [id], net) == KvStep(w, r, id, net);
  }

  lemma SoloLeaves(w: World, r: Round, id: Wid, net: Network)
    requires !w.aborted && r.kv == [] && r.onchain == [id] && id in w.status
    ensures Synced(w, r, net) == Decommissioned(w, id, net)
  {
    assert [id][..0] == [] && w.(aborted := false) == w;
    assert StaleLoop(w, r, [id], net) == StaleStep(w, r, id, net);
  }

  lemma SoloReturns(w: World, r: Round, id: Wid, net: Network)
    requires !w.aborted && r.kv == [id] && r.onchain == [id] && Stored(r, id)
    requires id in w.details && w.details[id] == Info(r, id)
    ensures Synced(w, r, net) == w
  {
    assert [id][..0] == [] && w.(aborted := false) == w;
    assert KvLoop(w, r, [id], net) == KvStep(w, r, id, net);
    assert StaleLoop(w, r, [id], net) == StaleStep(w, r, id, net);
  }

  lemma SoloUpdated(w: World, r: Round, id: Wid, net: Network)
    requires !w.aborted && r.kv == [id] && r.onchain == [id] && Stored(r, id)
    requires Get(w.details, id) != Some(Info(r, id))
    ensures Synced(w, r, net) == Updated(w, id, Info(r, id), net)
  {
    assert [id][..0] == [] && w.(aborted := false) == w;
    assert KvLoop(w, r, [id], net) == KvStep(w, r, id, net);
    var mid := KvStep(w, r, id, net);
    assert StaleLoop(mid, r, [id], net) == StaleStep(mid, r, id, net);
  }

  // ----- half an update --------------------------------------------------------------------------------

  /** If the details are updated and the status call after it does not succeed, the details are
      cached, the status on the chain stays, and the round is aborted. */
  lemma HalfUpdated(w: World, r: Round, id: Wid, net: Network)
    requires !w.aborted && Stored(r, id) && id in r.onchain && id in w.chain
    requires Get(w.details, id) != Some(Info(r, id))
    requires net(|w.calls|) == Success && net(|w.calls| + 1) != Success
    ensures var w' := KvStep(w, r, id, net);
            && w'.aborted
            && ViewOf(w', id) == View(Some(w.chain[id].(details := Info(r, id))), Some(Info(r, id)), Get(w.status, id))
  {
  }

  /** A round that lists the worker in both places and, if it can read them, with the cached details. */
  predicate KeepsDetails(r: Round, id: Wid, d: string) {
    id in r.kv && id in r.onchain && (Stored(r, id) ==> Info(r, id) == d)
  }

  lemma {:induction false} KvLoopKeeps(w: World, r: Round, ids: seq<Wid>, net: Network, id: Wid, d: string)
    requires Get(w.details, id) == Some(d) && KeepsDetails(r, id, d)
    ensures ViewOf(KvLoop(w, r, ids, net), id) == ViewOf(w, id)
    decreases |ids|
  {
    if ids != [] {
      var init, x := ids[..|ids| - 1], ids[|ids| - 1];
      KvLoopKeeps(w, r, init, net, id, d);
      var before := KvLoop(w, r, init, net);
      assert Get(before.details, id) == ViewOf(before, id).details == Some(d);
      if x != id {
        KvStepElsewhere(before, r, x, net, id);
      }
    }
  }

  lemma {:induction false} StaleLoopKeeps(w: World, r: Round, ids: seq<Wid>, net: Network, id: Wid)
    requires id in r.kv
    ensures ViewOf(StaleLoop(w, r, ids, net), id) == ViewOf(w, id)
    decreases |ids|
  {
    if ids != [] {
      var init, x := ids[..|ids| - 1], ids[|ids| - 1];
      StaleLoopKeeps(w, r, init, net, id);
      if x != id {
        StaleStepElsewhere(StaleLoop(w, r, init, net), r, x, net, id);
      }
    }
  }

  /** While a worker stays stored with its cached details, no round changes it on the chain or in
      the caches, whatever its status and whichever calls succeed. */
  lemma {:induction false} CachedNeverRetried(w: World, rs: seq<Round>, net: Network, id: Wid, d: string)
    requires Get(w.details, id) == Some(d) && forall i :: 0 <= i < |rs| ==> KeepsDetails(rs[i], id, d)
    ensures ViewOf(SyncRuns(w, rs, net), id) == ViewOf(w, id)
  {
    if rs != [] {
      var init, r := rs[..|rs| - 1], rs[|rs| - 1];
      CachedNeverRetried(w, init, net, id, d);
      var before := SyncRuns(w, init, net).(aborted := false);
      assert ViewOf(before, id) == ViewOf(w, id) && ViewOf(w, id).details == Some(d);
      KvLoopKeeps(before, r, r.kv, net, id, d);
      StaleLoopKeeps(KvLoop(before, r, r.kv, net), r, r.onchain, net, id);
    }
  }

  /** A worker leaves and comes back with new details; the one status call of its update fails.  It
      stays decommissioned over all later rounds that store it so, whichever calls succeed. */
  lemma HalfUpdateStaysRetired(rs: seq<Round>, net: Network)
    requires forall i :: 0 <= i < |rs| ==> KeepsDetails(rs[i], Wid("w"), "new")
    ensures var id, w := Wid("w"), World(map[], map[], map[], [], false);
            var fourthFails: Network := n => if n == 3 then Failure else Success;
            var joins, leaves := Round([id], map[id := Some("old")], []), Round([], map[], [id]);
            var back := Round([id], map[id := Some("new")], [id]);
            var w3 := Synced(Synced(Synced(w, joins, fourthFails), leaves, fourthFails), back, fourthFails);
            && Get(w3.details, id) == Some("new")
            && Get(w3.chain, id) == Get(SyncRuns(w3, rs, net).chain, id) == Some(Entry("new", DECOMMISSIONED))
  {
    var id, w := Wid("w"), World(map[], map[], map[], [], false);
    var fourthFails: Network := n => if n == 3 then Failure else Success;
    var back := Round([id], map[id := Some("new")], [id]);
    SoloJoins(w, Round([id], map[id := Some("old")], []), id, fourthFails);
    var w1 := Registered(w, id, "old", fourthFails);
    SoloLeaves(w1, Round([], map[], [id]), id, fourthFails);
    var w2 := Decommissioned(w1, id, fourthFails);
    SoloUpdated(w2, back, id, fourthFails);
    HalfUpdated(w2, back, id, fourthFails);
    var w3 := Synced(w2, back, fourthFails);
    assert ViewOf(w3, id).entry == Get(w3.chain, id) == Some(Entry("new", DECOMMISSIONED));
    CachedNeverRetried(w3, rs, net, id, "new");
    assert ViewOf(SyncRuns(w3, rs, net), id).entry == Get(SyncRuns(w3, rs, net).chain, id);
  }

  // ----- repeating a round -----------------------------------------------------------------------------

  /** Calls of a round in which every stored worker is already cached with its details. */
  function QuietCalls(w: World, r: Round, ids: seq<Wid>): seq<Call> {
    if ids == [] then []
    else
      var x := ids[|ids| - 1];
      QuietCalls(w, r, ids[..|ids| - 1])
      + if x in r.kv then [] else if x in w.status then [SetStatus(x, DECOMMISSIONED)] else [Retrieve(x)]
  }

  predicate QuietAt(w: World, r: Round, id: Wid) {
    && (id in r.kv ==> id in w.details && w.details[id] == Info(r, id))
    && (id !in r.kv && id in w.chain ==> w.chain[id].status == DECOMMISSIONED)
    && (id !in r.kv && id in w.status ==> w.status[id] == DECOMMISSIONED)
  }

  lemma {:induction false} QuietKvLoop(w: World, r: Round, ids: seq<Wid>, net: Network)
    requires !w.aborted
    requires forall i :: 0 <= i < |ids| ==>
               Stored(r, ids[i]) && ids[i] in r.onchain && ids[i] in r.kv && QuietAt(w, r, ids[i])
    ensures KvLoop(w, r, ids, net) == w
  {
    if ids != [] {
      QuietKvLoop(w, r, ids[..|ids| - 1], net);
      assert QuietAt(w, r, ids[|ids| - 1]);
    }
  }

  lemma QuietStaleStep(w: World, r: Round, id: Wid, net: Network)
    requires AllSucceed(net) && !w.aborted && id in w.chain && QuietAt(w, r, id)
    ensures StaleStep(w, r, id, net) ==
            w.(calls := w.calls + if id in r.kv then []
                                  else if id in w.status then [SetStatus(id, DECOMMISSIONED)] else [Retrieve(id)])
  {
    if id !in r.kv {
      assert w.chain[id := w.chain[id].(status := DECOMMISSIONED)] == w.chain;
      assert id in w.status ==> w.status[id := DECOMMISSIONED] == w.status;
    }
  }

  lemma {:induction false} QuietStaleLoop(w: World, r: Round, ids: seq<Wid>, net: Network)
    requires AllSucceed(net) && !w.aborted
    requires forall i :: 0 <= i < |ids| ==> ids[i] in w.chain && QuietAt(w, r, ids[i])
    ensures StaleLoop(w, r, ids, net) == w.(calls := w.calls + QuietCalls(w, r, ids))
  {
    if ids != [] {
      var init, x := ids[..|ids| - 1], ids[|ids| - 1];
      QuietStaleLoop(w, r, init, net);
      var before := w.(calls := w.calls + QuietCalls(w, r, init));
      assert QuietAt(w, r, x) && QuietAt(before, r, x);
      QuietStaleStep(before, r, x, net);
      assert before.calls + QuietCalls(w, r, ids)[|QuietCalls(w, r, init)|..] == w.calls + QuietCalls(w, r, ids);
    }
  }

  lemma QuietAfter(w: World, r: Round, net: Network, id: Wid)
    requires AllSucceed(net) && Coherent(w) && Good(w, r)
    ensures var w' := Synced(w, r, net);
            QuietAt(w', r, id) && (id in r.kv ==> id in w'.chain)
  {
    var w' := Synced(w, r, net);
    SyncedView(w, r, net, id);
    assert CoherentAt(w, id);
    assert ViewOf(w', id) == View(Get(w'.chain, id), Get(w'.details, id), Get(w'.status, id));
  }

  /** Repeating an all-success round with the same stored workers changes nothing but the record
      of calls, and makes no register or update call. */
  lemma RepeatedRoundIsQuiet(w: World, r: Round, again: Round, net: Network)
    requires AllSucceed(net) && Coherent(w) && Good(w, r)
    requires again.kv == r.kv && again.info == r.info && Good(Synced(w, r, net), again)
    ensures var w' := Synced(w, r, net);
            Synced(w', again, net) == w'.(calls := w'.calls + QuietCalls(w', again, again.onchain))
  {
    var w' := Synced(w, r, net);
    forall id ensures QuietAt(w', again, id) && (id in again.kv ==> id in w'.chain) {
      QuietAfter(w, r, net, id);
    }
    SyncedView(w, r, net, Wid(""));
    assert w'.(aborted := false) == w';
    QuietKvLoop(w', again, again.kv, net);
    QuietStaleLoop(w', again, again.onchain, net);
  }

  lemma {:induction false} QuietCallsOnlyRetire(w: World, r: Round, ids: seq<Wid>, i: nat)
    requires i < |QuietCalls(w, r, ids)|
    ensures var call := QuietCalls(w, r, ids)[i];
            call.id !in r.kv && (call.Retrieve? || call == SetStatus(call.id, DECOMMISSIONED))
  {
    if ids != [] && i < |QuietCalls(w, r, ids[..|ids| - 1])| {
      QuietCallsOnlyRetire(w, r, ids[..|ids| - 1], i);
    }
  }
}
