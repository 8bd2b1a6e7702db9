/** What every run of the work-order protocol keeps.

The invariant is stated per id, per worker and per processor, so that each step
is checked against an arbitrary one of each.
*/
module Lifecycle {
  import opened Options
  import opened WorkOrders

  // ----- the invariant ------------------------------------------------------------

  /** The id a processor has taken and not yet recorded. */
  function InHand(pc: Proc): Option<Id> {
    if pc.Resting? || pc.Listed? then None else Some(pc.id)
  }

  function HandPhase(pc: Proc, p: Identity): Phase {
    match pc
    case Ran(_, _, _) => Executed(p)
    case Stored(_) => Replied(p)
    case _ => Held(p)
  }

  predicate IsHeld(ph: Phase) {
    ph.Held? || ph.Executed? || ph.Replied?
  }

  predicate RowsFit(kv: Kv, id: Id, ph: Phase) {
    match ph
    case Absent => id !in kv.requests && id !in kv.responses && id !in kv.receipts
    case Accepted => id !in kv.responses
    case Scheduled(_) => id in kv.requests && id !in kv.responses
    case Held(_) => id in kv.requests && id !in kv.responses
    case Executed(_) => id in kv.requests && id !in kv.responses
    case Replied(_) => id in kv.requests && id in kv.responses && kv.responses[id].request == kv.requests[id]
    case Recorded(_) => id in kv.requests && id in kv.responses && kv.responses[id].request == kv.requests[id]
    case Struck => id in kv.responses
    case Erased => id !in kv.requests && id !in kv.responses
    case Illegal => false
  }

  predicate IdOk(s: State, id: Id) {
    var ph := Ph(s, id);
    && (id in s.kv.stamps <==> ph != Absent)
    && RowsFit(s.kv, id, ph)
    && (ph.Scheduled? ==> id in Row(s.kv.scheduled, ph.w))
    && (ph.Recorded? ==> id in Row(s.kv.processed, ph.w))
    && (IsHeld(ph) ==> InHand(ProcOf(s, ph.p)) == Some(id))
  }

  predicate RowOk(c: Config, s: State, w: Worker, row: seq<Id>, ph: Phase) {
    && Distinct(row)
    && (forall i :: 0 <= i < |row| ==> Ph(s, row[i]) == ph)
    && (row != [] ==> w in c.workers)
  }

  predicate WorkerOk(c: Config, s: State, w: Worker) {
    && RowOk(c, s, w, Row(s.kv.scheduled, w), Scheduled(w))
    && RowOk(c, s, w, Row(s.kv.processed, w), Recorded(w))
  }

  predicate HasRequest(pc: Proc) {
    pc.Fetched? || pc.Marked? || pc.Rejected? || pc.Ran?
  }

  predicate ProcOk(c: Config, s: State, p: Identity) {
    var pc, kv := ProcOf(s, p), s.kv;
    && (p !in c.home ==> pc.Resting?)
    && (InHand(pc).Some? ==> Ph(s, pc.id) == HandPhase(pc, p))
    && (HasRequest(pc) ==> pc.id in kv.requests && kv.requests[pc.id] == pc.request)
    && (p in kv.processing ==>
          (pc.Marked? || pc.Ran? || pc.Stored? || pc.Listed?) && kv.processing[p] == pc.id)
    && (pc.Marked? || pc.Ran? ==> p in kv.processing)
  }

  /** What the listener knows in the middle of a request. */
  predicate JobOk(s: State, job: Job) {
    var kv := s.kv;
    match job
    case Scan(_, _, found) => FoundOk(s, found)
    case ReadStamps(_, found) => FoundOk(s, found)
    case StrikeOff(_, id, w) => Ph(s, id) == Recorded(w)
    case DropRequest(_, id) => Ph(s, id) == Struck
    case DropResponse(_, id) => Ph(s, id) == Struck && id !in kv.requests
    case DropReceipt(_, id) => Ph(s, id) == Erased && id !in kv.requests
    case DropStamp(_, id) => Ph(s, id) == Erased && id !in kv.requests && id !in kv.receipts
    case PutStamp(sub) => Ph(s, sub.id) == Absent
    case PutRequest(sub) => Ph(s, sub.id) == Accepted
    case Append(sub) => Ph(s, sub.id) == Accepted && sub.id in kv.requests
    case AskStamp(id) => Ph(s, id) != Struck
    case FindReceipt(id) => id in kv.requests
    case PutReceipt(id) => id in kv.requests
    case _ => true
  }

  predicate FoundOk(s: State, found: map<Id, Worker>) {
    forall id :: id in found ==> Ph(s, id) == Recorded(found[id])
  }

  /** The worker of a submit in progress is a key of worker-pool. */
  predicate JobPooled(c: Config, job: Job) {
    job.Idle? || job.AskResponse? || job.AskStamp? || job.FindRequest? || job.FindReceipt? || job.PutReceipt?
    || job.sub.w in c.workers
  }

  predicate KeptIfLive(c: Config, s: State, keep: set<Id>, id: Id) {
    id in s.kv.stamps && IsLive(c, s.kv, id) ==> id in keep
  }

  /** Rows the boot has already removed for the id it is dropping. */
  predicate PartlyDropped(kv: Kv, id: Id, stage: BootStage) {
    && (stage != Requests ==> id !in kv.requests)
    && (stage == Receipts || stage == Stamps ==> id !in kv.responses)
    && (stage == Stamps ==> id !in kv.receipts)
  }

  ghost predicate BootOk(c: Config, s: State, b: Listener)
    requires b.Booting?
  {
    && (forall p :: p in c.home ==> Settled(s, p))
    && Distinct(b.todo)
    && (forall i :: 0 <= i < |b.todo| ==> b.todo[i] in s.kv.stamps)
    && (forall id :: KeptIfLive(c, s, b.keep, id))
    && (if b.todo != [] && b.todo[0] !in b.keep then PartlyDropped(s.kv, b.todo[0], b.stage) else b.stage == Requests)
  }

  ghost predicate ListenerOk(c: Config, s: State) {
    match s.listener
    case Down => true
    case Booting(_, _, _, _) => BootOk(c, s, s.listener)
    case Up(_, _, job) => JobOk(s, job) && JobPooled(c, job)
  }

  ghost predicate Inv(c: Config, s: State) {
    && c.Valid()
    && (forall id :: IdOk(s, id))
    && (forall w :: WorkerOk(c, s, w))
    && (forall p :: ProcOk(c, s, p))
    && ListenerOk(c, s)
  }

  lemma InitialInv(c: Config)
    requires c.Valid()
    ensures Inv(c, Initial())
  {
  }

  // ----- helpers ----------------------------------------------------------------------

  lemma TailFacts(l: seq<Id>)
    requires l != [] && Distinct(l)
    ensures Distinct(l[1..]) && l[0] !in l[1..]
    ensures forall x :: x in l <==> x == l[0] || x in l[1..]
  {
    assert l == [l[0]] + l[1..];
  }

  lemma {:induction false} WithoutFacts(l: seq<Id>, id: Id)
    ensures |Without(l, id)| == if id in l then |l| - 1 else |l|
    ensures forall x :: x in Without(l, id) ==> x in l
    ensures forall x :: x in l && x != id ==> x in Without(l, id)
    ensures Distinct(l) ==> Distinct(Without(l, id)) && id !in Without(l, id)
    decreases |l|
  {
    if l != [] {
      assert l == [l[0]] + l[1..];
      if Distinct(l) {
        TailFacts(l);
      }
      if l[0] != id {
        WithoutFacts(l[1..], id);
      }
    }
  }

  // ----- one step touches one id, one worker and one processor ----------------------------

  predicate SameAt(s: State, s': State, id: Id) {
    && Ph(s', id) == Ph(s, id)
    && (id in s'.kv.stamps <==> id in s.kv.stamps)
    && (id in s'.kv.requests <==> id in s.kv.requests)
    && (id in s.kv.requests && id in s'.kv.requests ==> s'.kv.requests[id] == s.kv.requests[id])
    && (id in s'.kv.responses <==> id in s.kv.responses)
    && (id in s.kv.responses && id in s'.kv.responses ==> s'.kv.responses[id] == s.kv.responses[id])
  }

  predicate SameProc(s: State, s': State, p: Identity) {
    && ProcOf(s', p) == ProcOf(s, p)
    && (p in s'.kv.processing <==> p in s.kv.processing)
    && (p in s.kv.processing && p in s'.kv.processing ==> s'.kv.processing[p] == s.kv.processing[p])
  }

  predicate SameRows(s: State, s': State, w: Worker) {
    && Row(s'.kv.scheduled, w) == Row(s.kv.scheduled, w)
    && Row(s'.kv.processed, w) == Row(s.kv.processed, w)
  }

  /** Outside the touched id, worker and processor nothing changes. */
  ghost predicate OnlyTouches(s: State, s': State, id: Id, w: Worker, p: Identity) {
    && (forall x :: x != id ==> SameAt(s, s', x) && (x in s'.kv.receipts <==> x in s.kv.receipts))
    && (forall v :: v != w ==> SameRows(s, s', v))
    && (forall q :: q != p ==> SameProc(s, s', q))
  }

  /** A moving id was with the touched worker or processor, if with any. */
  predicate Local(ph: Phase, w: Worker, p: Identity) {
    && (ph.Scheduled? || ph.Recorded? ==> ph.w == w)
    && (IsHeld(ph) ==> ph.p == p)
  }

  /** A row gains or loses at most `id`. */
  ghost predicate RowMoves(row: seq<Id>, row': seq<Id>, id: Id) {
    Distinct(row') && forall x :: x != id ==> (x in row' <==> x in row)
  }

  ghost predicate TouchedOk(c: Config, s: State, s': State, id: Id, w: Worker, p: Identity) {
    && IdOk(s', id)
    && (SameAt(s, s', id) || Local(Ph(s, id), w, p))
    && (if SameProc(s, s', p) then SameAt(s, s', id) || !IsHeld(Ph(s, id))
        else ProcOk(c, s', p) && (InHand(ProcOf(s, p)).None? || InHand(ProcOf(s, p)) == Some(id)))
    && RowMoves(Row(s.kv.scheduled, w), Row(s'.kv.scheduled, w), id)
    && RowMoves(Row(s.kv.processed, w), Row(s'.kv.processed, w), id)
    && (id in Row(s'.kv.scheduled, w) ==> Ph(s', id) == Scheduled(w) && w in c.workers)
    && (id in Row(s'.kv.processed, w) ==> Ph(s', id) == Recorded(w) && w in c.workers)
  }

  lemma IdsKept(c: Config, s: State, s': State, id: Id, w: Worker, p: Identity)
    requires forall x :: IdOk(s, x)
    requires OnlyTouches(s, s', id, w, p) && TouchedOk(c, s, s', id, w, p)
    ensures forall x :: IdOk(s', x)
  {
    forall x ensures IdOk(s', x) {
      if x != id {
        assert IdOk(s, x) && SameAt(s, s', x);
        var ph := Ph(s, x);
        if ph.Scheduled? || ph.Recorded? {
          assert ph.w != w ==> SameRows(s, s', ph.w);
        }
        if IsHeld(ph) {
          assert ph.p != p ==> SameProc(s, s', ph.p);
        }
      }
    }
  }

  lemma WorkersKept(c: Config, s: State, s': State, id: Id, w: Worker, p: Identity)
    requires forall v :: WorkerOk(c, s, v)
    requires OnlyTouches(s, s', id, w, p) && TouchedOk(c, s, s', id, w, p)
    ensures forall v :: WorkerOk(c, s', v)
  {
    forall v ensures WorkerOk(c, s', v) {
      assert WorkerOk(c, s, v);
      assert v != w ==> SameRows(s, s', v);
      RowKept(c, s, s', v, Row(s.kv.scheduled, v), Row(s'.kv.scheduled, v), Scheduled(v), id);
      RowKept(c, s, s', v, Row(s.kv.processed, v), Row(s'.kv.processed, v), Recorded(v), id);
    }
  }

  lemma RowKept(c: Config, s: State, s': State, w: Worker, row: seq<Id>, row': seq<Id>, ph: Phase, id: Id)
    requires RowOk(c, s, w, row, ph)
    requires forall x :: x != id ==> SameAt(s, s', x)
    requires RowMoves(row, row', id)
    requires id in row' ==> Ph(s', id) == ph && w in c.workers
    ensures RowOk(c, s', w, row', ph)
  {
    forall i | 0 <= i < |row'| ensures Ph(s', row'[i]) == ph && w in c.workers {
      var x := row'[i];
      assert x in row';
      if x != id {
        assert x in row && SameAt(s, s', x);
      }
    }
    assert row' != [] ==> row'[0] in row';
  }

  lemma ProcsKept(c: Config, s: State, s': State, id: Id, w: Worker, p: Identity)
    requires forall q :: ProcOk(c, s, q)
    requires OnlyTouches(s, s', id, w, p) && TouchedOk(c, s, s', id, w, p)
    ensures forall q :: ProcOk(c, s', q)
  {
    forall q ensures ProcOk(c, s', q) {
      if SameProc(s, s', q) {
        assert ProcOk(c, s, q);
        var hand := InHand(ProcOf(s, q));
        if hand.Some? {
          assert SameAt(s, s', hand.value);
        }
      }
    }
  }

  lemma Kept(c: Config, s: State, s': State, id: Id, w: Worker, p: Identity)
    requires Inv(c, s)
    requires OnlyTouches(s, s', id, w, p) && TouchedOk(c, s, s', id, w, p)
    requires ListenerOk(c, s')
    ensures Inv(c, s')
  {
    IdsKept(c, s, s', id, w, p);
    WorkersKept(c, s, s', id, w, p);
    ProcsKept(c, s, s', id, w, p);
  }

  // ----- processor steps ----------------------------------------------------------------

  /** The listener is not concerned with ids that are queued or in a processor's hand. */
  lemma ProcKeepsListener(c: Config, s: State, s': State, id: Id)
    requires ListenerOk(c, s) && !s.listener.Booting? && s'.listener == s.listener
    requires s'.kv.requests == s.kv.requests && s'.kv.receipts == s.kv.receipts
    requires forall x :: x != id ==> SameAt(s, s', x)
    requires Ph(s', id) == Ph(s, id) || Ph(s, id).Scheduled? || IsHeld(Ph(s, id))
    requires Ph(s', id).Struck? ==> Ph(s, id).Struck?
    requires id in s'.kv.responses && id !in s.kv.responses ==> IsHeld(Ph(s, id))
    ensures ListenerOk(c, s')
  {
    if s.listener.Up? {
      var job := s.listener.job;
      if job.Scan? || job.ReadStamps? {
        forall x | x in job.found ensures Ph(s', x) == Recorded(job.found[x]) {
          assert x != id ==> SameAt(s, s', x);
        }
      } else if job.StrikeOff? || job.DropRequest? || job.DropResponse? || job.DropReceipt? || job.DropStamp? {
        assert job.victim != id ==> SameAt(s, s', job.victim);
      } else if job.AskStamp? {
        assert job.id != id ==> SameAt(s, s', job.id);
      } else if job.PutStamp? || job.PutRequest? || job.Append? {
        assert job.sub.id != id ==> SameAt(s, s', job.sub.id);
      }
    }
  }

  ghost predicate ProcMoves(c: Config, s: State, s': State, p: Identity, failed: bool) {
    && Inv(c, s) && p in c.home && !s.listener.Booting?
    && (ProcOf(s, p).Resting? ==> Row(s.kv.scheduled, c.home[p]) != [])
    && s' == ProcStep(s, p, c.home[p], failed)
  }

  lemma TakeKeeps(c: Config, s: State, s': State, p: Identity, failed: bool)
    requires ProcMoves(c, s, s', p, failed) && ProcOf(s, p).Resting?
    ensures Inv(c, s')
  {
    var w := c.home[p];
    var q := Row(s.kv.scheduled, w);
    assert WorkerOk(c, s, w);
    TailFacts(q);
    assert IdOk(s, q[0]) && ProcOk(c, s, p);
    ProcKeepsListener(c, s, s', q[0]);
    Kept(c, s, s', q[0], w, p);
  }

  lemma FetchKeeps(c: Config, s: State, s': State, p: Identity, failed: bool)
    requires ProcMoves(c, s, s', p, failed) && ProcOf(s, p).Popped?
    ensures Inv(c, s')
  {
    var w, id := c.home[p], ProcOf(s, p).id;
    assert WorkerOk(c, s, w) && IdOk(s, id) && ProcOk(c, s, p);
    ProcKeepsListener(c, s, s', id);
    Kept(c, s, s', id, w, p);
  }

  lemma MarkKeeps(c: Config, s: State, s': State, p: Identity, failed: bool)
    requires ProcMoves(c, s, s', p, failed) && ProcOf(s, p).Fetched?
    ensures Inv(c, s')
  {
    if ProcOf(s, p).request.parses {
      MarkParsed(c, s, s', p, failed);
    } else {
      RejectKeeps(c, s, s', p, failed);
    }
  }

  lemma MarkParsed(c: Config, s: State, s': State, p: Identity, failed: bool)
    requires ProcMoves(c, s, s', p, failed) && ProcOf(s, p).Fetched? && ProcOf(s, p).request.parses
    ensures Inv(c, s')
  {
    var w, id := c.home[p], ProcOf(s, p).id;
    assert WorkerOk(c, s, w) && IdOk(s, id) && ProcOk(c, s, p);
    ProcKeepsListener(c, s, s', id);
    Kept(c, s, s', id, w, p);
  }

  lemma RejectKeeps(c: Config, s: State, s': State, p: Identity, failed: bool)
    requires ProcMoves(c, s, s', p, failed) && ProcOf(s, p).Fetched? && !ProcOf(s, p).request.parses
    ensures Inv(c, s')
  {
    var w, id := c.home[p], ProcOf(s, p).id;
    assert WorkerOk(c, s, w) && IdOk(s, id) && ProcOk(c, s, p);
    ProcKeepsListener(c, s, s', id);
    Kept(c, s, s', id, w, p);
  }

  lemma RunKeeps(c: Config, s: State, s': State, p: Identity, failed: bool)
    requires ProcMoves(c, s, s', p, failed) && ProcOf(s, p).Marked?
    ensures Inv(c, s')
  {
    var w, id := c.home[p], ProcOf(s, p).id;
    assert WorkerOk(c, s, w) && IdOk(s, id) && ProcOk(c, s, p);
    ProcKeepsListener(c, s, s', id);
    Kept(c, s, s', id, w, p);
  }

  lemma ReplyKeeps(c: Config, s: State, s': State, p: Identity, failed: bool)
    requires ProcMoves(c, s, s', p, failed) && (ProcOf(s, p).Ran? || ProcOf(s, p).Rejected?)
    ensures Inv(c, s')
  {
    var w, id := c.home[p], ProcOf(s, p).id;
    assert WorkerOk(c, s, w) && IdOk(s, id) && ProcOk(c, s, p);
    ProcKeepsListener(c, s, s', id);
    Kept(c, s, s', id, w, p);
  }

  lemma ClearKeeps(c: Config, s: State, s': State, p: Identity, failed: bool)
    requires ProcMoves(c, s, s', p, failed) && ProcOf(s, p).Listed?
    ensures Inv(c, s')
  {
    var w, id := c.home[p], ProcOf(s, p).id;
    assert WorkerOk(c, s, w) && IdOk(s, id) && ProcOk(c, s, p);
    ProcKeepsListener(c, s, s', id);
    Kept(c, s, s', id, w, p);
  }

  lemma RecordKeeps(c: Config, s: State, s': State, p: Identity, failed: bool)
    requires ProcMoves(c, s, s', p, failed) && ProcOf(s, p).Stored?
    ensures Inv(c, s')
  {
    var w, id := c.home[p], ProcOf(s, p).id;
    assert WorkerOk(c, s, w) && IdOk(s, id) && ProcOk(c, s, p);
    ProcKeepsListener(c, s, s', id);
    Kept(c, s, s', id, w, p);
  }

  lemma ProcKeeps(c: Config, s: State, s': State, p: Identity, failed: bool)
    requires ProcMoves(c, s, s', p, failed)
    ensures Inv(c, s')
  {
    match ProcOf(s, p)
    case Resting => TakeKeeps(c, s, s', p, failed);
    case Popped(_) => FetchKeeps(c, s, s', p, failed);
    case Fetched(_, _) => MarkKeeps(c, s, s', p, failed);
    case Marked(_, _) => RunKeeps(c, s, s', p, failed);
    case Rejected(_, _) => ReplyKeeps(c, s, s', p, failed);
    case Ran(_, _, _) => ReplyKeeps(c, s, s', p, failed);
    case Stored(_) => RecordKeeps(c, s, s', p, failed);
    case Listed(_) => ClearKeeps(c, s, s', p, failed);
  }

  // ----- listener steps -------------------------------------------------------------------

  lemma QuietKeeps(c: Config, s: State, s': State)
    requires Inv(c, s) && s'.kv == s.kv && s'.procs == s.procs
    requires forall x :: Ph(s', x) == Ph(s, x)
    requires ListenerOk(c, s')
    ensures Inv(c, s')
  {
    forall x ensures IdOk(s', x) { assert IdOk(s, x); }
    forall w ensures WorkerOk(c, s', w) { assert WorkerOk(c, s, w); }
    forall p ensures ProcOk(c, s', p) { assert ProcOk(c, s, p); }
  }

  /** A listener step that touches one id and at most one worker's rows. */
  lemma ListenerKeeps(c: Config, s: State, s': State, id: Id, w: Worker)
    requires Inv(c, s) && s'.procs == s.procs && s'.kv.processing == s.kv.processing
    requires forall x :: x != id ==> SameAt(s, s', x) && (x in s'.kv.receipts <==> x in s.kv.receipts)
    requires forall v :: v != w ==> SameRows(s, s', v)
    requires IdOk(s', id) && Local(Ph(s, id), w, Identity("")) && !IsHeld(Ph(s, id))
    requires RowMoves(Row(s.kv.scheduled, w), Row(s'.kv.scheduled, w), id)
    requires RowMoves(Row(s.kv.processed, w), Row(s'.kv.processed, w), id)
    requires id in Row(s'.kv.scheduled, w) ==> Ph(s', id) == Scheduled(w) && w in c.workers
    requires id in Row(s'.kv.processed, w) ==> Ph(s', id) == Recorded(w) && w in c.workers
    requires ListenerOk(c, s')
    ensures Inv(c, s')
  {
    forall q ensures SameProc(s, s', q) {}
    Kept(c, s, s', id, w, Identity(""));
  }

  /** In the listener's own hands: not queued, held or listed anywhere. */
  predicate WithListener(ph: Phase) {
    ph.Absent? || ph.Accepted? || ph.Struck? || ph.Erased?
  }

  /** A listener step on the rows of one id that no list names. */
  lemma RowsKeep(c: Config, s: State, s': State, id: Id)
    requires Inv(c, s) && s'.procs == s.procs
    requires s'.kv.scheduled == s.kv.scheduled && s'.kv.processed == s.kv.processed
    requires s'.kv.processing == s.kv.processing
    requires forall x :: x != id ==> SameAt(s, s', x) && (x in s'.kv.receipts <==> x in s.kv.receipts)
    requires WithListener(Ph(s, id)) && WithListener(Ph(s', id)) && IdOk(s', id)
    requires ListenerOk(c, s')
    ensures Inv(c, s')
  {
    assert WorkerOk(c, s, Worker(""));
    ListenerKeeps(c, s, s', id, Worker(""));
  }

  ghost predicate JobMoves(c: Config, s: State, s': State, order: seq<Id>, ok: bool) {
    && Inv(c, s) && s.listener.Up? && !s.listener.job.Idle?
    && (s.listener.job.ReadStamps? ==> Enumerates(order, s.kv.stamps))
    && s' == JobStep(c, s, order, ok)
  }

  lemma ScanKeeps(c: Config, s: State, s': State, order: seq<Id>, ok: bool)
    requires JobMoves(c, s, s', order, ok) && s.listener.job.Scan?
    ensures Inv(c, s')
  {
    var job := s.listener.job;
    if job.todo != [] {
      assert WorkerOk(c, s, job.todo[0]);
    }
    QuietKeeps(c, s, s');
  }

  lemma PickKeeps(c: Config, s: State, s': State, order: seq<Id>, ok: bool)
    requires JobMoves(c, s, s', order, ok) && s.listener.job.ReadStamps?
    ensures Inv(c, s')
  {
    QuietKeeps(c, s, s');
  }

  lemma CheckKeeps(c: Config, s: State, s': State, order: seq<Id>, ok: bool)
    requires JobMoves(c, s, s', order, ok) && s.listener.job.CheckStamp?
    ensures Inv(c, s')
  {
    assert IdOk(s, s.listener.job.sub.id);
    QuietKeeps(c, s, s');
  }

  lemma AskKeeps(c: Config, s: State, s': State, order: seq<Id>, ok: bool)
    requires JobMoves(c, s, s', order, ok)
    requires var job := s.listener.job; job.AskResponse? || job.AskStamp? || job.FindRequest? || job.FindReceipt?
    ensures Inv(c, s')
  {
    assert IdOk(s, s.listener.job.id);
    QuietKeeps(c, s, s');
  }

  lemma StrikeKeeps(c: Config, s: State, s': State, order: seq<Id>, ok: bool)
    requires JobMoves(c, s, s', order, ok) && s.listener.job.StrikeOff?
    ensures Inv(c, s')
  {
    var id, w := s.listener.job.victim, s.listener.job.owner;
    assert IdOk(s, id) && WorkerOk(c, s, w);
    WithoutFacts(Row(s.kv.processed, w), id);
    ListenerKeeps(c, s, s', id, w);
  }

  lemma DropKeeps(c: Config, s: State, s': State, order: seq<Id>, ok: bool)
    requires JobMoves(c, s, s', order, ok)
    requires s.listener.job.DropRequest? || s.listener.job.DropResponse? || s.listener.job.DropReceipt?
    ensures Inv(c, s')
  {
    var id := s.listener.job.victim;
    assert IdOk(s, id);
    RowsKeep(c, s, s', id);
  }

  lemma DropStampKeeps(c: Config, s: State, s': State, order: seq<Id>, ok: bool)
    requires JobMoves(c, s, s', order, ok) && s.listener.job.DropStamp?
    ensures Inv(c, s')
  {
    var id := s.listener.job.victim;
    assert IdOk(s, id);
    RowsKeep(c, s, s', id);
  }

  lemma SubmitKeeps(c: Config, s: State, s': State, order: seq<Id>, ok: bool)
    requires JobMoves(c, s, s', order, ok)
    requires s.listener.job.PutStamp? || s.listener.job.PutRequest?
    ensures Inv(c, s')
  {
    var id := s.listener.job.sub.id;
    assert IdOk(s, id);
    RowsKeep(c, s, s', id);
  }

  lemma AppendKeeps(c: Config, s: State, s': State, order: seq<Id>, ok: bool)
    requires JobMoves(c, s, s', order, ok) && s.listener.job.Append?
    ensures Inv(c, s')
  {
    var id, w := s.listener.job.sub.id, s.listener.job.sub.w;
    assert IdOk(s, id) && WorkerOk(c, s, w);
    ListenerKeeps(c, s, s', id, w);
  }

  lemma ReceiptKeeps(c: Config, s: State, s': State, order: seq<Id>, ok: bool)
    requires JobMoves(c, s, s', order, ok) && s.listener.job.PutReceipt?
    ensures Inv(c, s')
  {
    forall x ensures IdOk(s', x) { assert IdOk(s, x); }
    forall w ensures WorkerOk(c, s', w) { assert WorkerOk(c, s, w); }
    forall p ensures ProcOk(c, s', p) { assert ProcOk(c, s, p); }
  }

  lemma JobKeeps(c: Config, s: State, s': State, order: seq<Id>, ok: bool)
    requires JobMoves(c, s, s', order, ok)
    ensures Inv(c, s')
  {
    match s.listener.job
    case Scan(_, _, _) => ScanKeeps(c, s, s', order, ok);
    case StrikeOff(_, _, _) => StrikeKeeps(c, s, s', order, ok);
    case DropRequest(_, _) => DropKeeps(c, s, s', order, ok);
    case DropResponse(_, _) => DropKeeps(c, s, s', order, ok);
    case DropReceipt(_, _) => DropKeeps(c, s, s', order, ok);
    case DropStamp(_, _) => DropStampKeeps(c, s, s', order, ok);
    case PutStamp(_) => SubmitKeeps(c, s, s', order, ok);
    case PutRequest(_) => SubmitKeeps(c, s, s', order, ok);
    case Append(_) => AppendKeeps(c, s, s', order, ok);
    case PutReceipt(_) => ReceiptKeeps(c, s, s', order, ok);
    case ReadStamps(_, _) => PickKeeps(c, s, s', order, ok);
    case CheckStamp(_) => CheckKeeps(c, s, s', order, ok);
    case _ => AskKeeps(c, s, s', order, ok);
  }

  // ----- boot -----------------------------------------------------------------------------

  lemma LiveSame(c: Config, kv: Kv, kv': Kv, id: Id)
    requires kv'.scheduled == kv.scheduled && kv'.processed == kv.processed && kv'.processing == kv.processing
    ensures IsLive(c, kv', id) <==> IsLive(c, kv, id)
  {
  }

  /** With no processor between pop and mark, an id no table names is left over from an
      unfinished submit or purge. */
  lemma DeadPhase(c: Config, s: State, id: Id)
    requires Inv(c, s) && id in s.kv.stamps && !IsLive(c, s.kv, id)
    requires forall p :: p in c.home ==> Settled(s, p)
    ensures WithListener(Ph(s, id)) && !Ph(s, id).Absent?
  {
    assert IdOk(s, id);
    var ph := Ph(s, id);
    var w := if ph.Scheduled? || ph.Recorded? then ph.w else Worker("");
    var p := if IsHeld(ph) then ph.p else Identity("");
    assert WorkerOk(c, s, w) && ProcOk(c, s, p) && (p in c.home ==> Settled(s, p));
  }

  ghost predicate BootDrops(c: Config, s: State, s': State) {
    && Inv(c, s) && s.listener.Booting?
    && s.listener.todo != [] && s.listener.todo[0] !in s.listener.keep
    && s' == BootStep(s)
  }

  lemma BootDropListener(c: Config, s: State, s': State)
    requires BootDrops(c, s, s')
    ensures ListenerOk(c, s')
  {
    var b := s.listener;
    TailFacts(b.todo);
    forall x ensures KeptIfLive(c, s', b.keep, x) {
      assert KeptIfLive(c, s, b.keep, x);
      LiveSame(c, s.kv, s'.kv, x);
    }
    forall p | p in c.home ensures Settled(s', p) { assert Settled(s, p); }
  }

  lemma BootDropRow(c: Config, s: State, s': State)
    requires BootDrops(c, s, s') && s.listener.stage != Stamps
    ensures Inv(c, s')
  {
    var id := s.listener.todo[0];
    BootDropPhase(c, s, s');
    assert IdOk(s, id);
    BootDropListener(c, s, s');
    RowsKeep(c, s, s', id);
  }

  lemma BootDropStamp(c: Config, s: State, s': State)
    requires BootDrops(c, s, s') && s.listener.stage == Stamps
    ensures Inv(c, s')
  {
    var id := s.listener.todo[0];
    BootDropPhase(c, s, s');
    assert IdOk(s, id);
    BootDropListener(c, s, s');
    RowsKeep(c, s, s', id);
  }

  lemma BootDropPhase(c: Config, s: State, s': State)
    requires BootDrops(c, s, s')
    ensures WithListener(Ph(s, s.listener.todo[0])) && !Ph(s, s.listener.todo[0]).Absent?
  {
    var id := s.listener.todo[0];
    assert KeptIfLive(c, s, s.listener.keep, id);
    DeadPhase(c, s, id);
  }

  lemma BootMoveKeeps(c: Config, s: State, s': State)
    requires Inv(c, s) && s.listener.Booting?
    requires s.listener.todo == [] || s.listener.todo[0] in s.listener.keep
    requires s' == BootStep(s)
    ensures Inv(c, s')
  {
    var b := s.listener;
    if b.todo != [] {
      TailFacts(b.todo);
      forall x ensures KeptIfLive(c, s', b.keep, x) { assert KeptIfLive(c, s, b.keep, x); }
      forall p | p in c.home ensures Settled(s', p) { assert Settled(s, p); }
      assert BootOk(c, s', s'.listener);
    }
    QuietKeeps(c, s, s');
  }

  lemma StepKeeps(c: Config, s: State, a: Action)
    requires Inv(c, s) && Enabled(c, s, a)
    ensures Inv(c, Apply(c, s, a))
  {
    var s' := Apply(c, s, a);
    match a
    case Crash => QuietKeeps(c, s, s');
    case StartBoot(order) =>
      forall p | p in c.home ensures Settled(s', p) { assert Settled(s, p); }
      QuietKeeps(c, s, s');
    case StepBoot =>
      if s.listener.todo == [] || s.listener.todo[0] in s.listener.keep {
        BootMoveKeeps(c, s, s');
      } else if s.listener.stage == Stamps {
        BootDropStamp(c, s, s');
      } else {
        BootDropRow(c, s, s');
      }
    case Receive(ask) => QuietKeeps(c, s, s');
    case StepJob(order, ok) => JobKeeps(c, s, s', order, ok);
    case StepProc(p, failed) => ProcKeeps(c, s, s', p, failed);
  }

  lemma {:induction false} RunKeepsInv(c: Config, s: State, actions: seq<Action>)
    requires Inv(c, s) && Exec(c, s, actions).Some?
    ensures Inv(c, Exec(c, s, actions).value)
    decreases |actions|
  {
    if actions != [] {
      var last := |actions| - 1;
      RunKeepsInv(c, s, actions[..last]);
      StepKeeps(c, Exec(c, s, actions[..last]).value, actions[last]);
    }
  }
}
