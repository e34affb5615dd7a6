/**
 The offline queue of the field app: one store of pending operations, drained by passes of
 the page and of the service worker that may overlap in any way.

 A pass takes a snapshot of the store and then, operation by operation, sends the request
 and commits the outcome. Each store transaction is atomic; anything may happen between
 the snapshot, a send and its commit.
 */
module OfflineQueue {
  import opened Prelude

  const MAX_ATTEMPTS := 5

  type Request = int
  type PassId = nat

  datatype Op = Op(id: nat, request: Request, attempts: nat)

  type Store = map<nat, Op>

  /** The service worker and the page treat a refusal and a network error alike. */
  datatype Reply = Accepted | Refused | NetworkError

  // ---------------------------------------------------------------- transactions

  /** All records in key order, that is, in the order they were enqueued. */
  function Snapshot(store: Store, nextId: nat): seq<Op> {
    if nextId == 0 then []
    else Snapshot(store, nextId - 1) + if nextId - 1 in store then [store[nextId - 1]] else []
  }

  function Bump(store: Store, id: nat): Store {
    if id in store then store[id := store[id].(attempts := store[id].attempts + 1)] else store
  }

  function Commit(store: Store, id: nat, accepted: bool): Store {
    if accepted then store - {id} else Bump(store, id)
  }

  ghost predicate StoreOk(store: Store, nextId: nat) {
    forall id :: id in store ==> id < nextId && store[id].id == id
  }

  lemma {:induction false} SnapshotHolds(store: Store, nextId: nat, i: nat)
    requires StoreOk(store, nextId) && i < |Snapshot(store, nextId)|
    ensures var op := Snapshot(store, nextId)[i]; op.id < nextId && op.id in store && store[op.id] == op
  {
    SnapshotUpTo(store, nextId, nextId, i);
  }

  lemma {:induction false} SnapshotUpTo(store: Store, nextId: nat, n: nat, i: nat)
    requires StoreOk(store, nextId) && i < |Snapshot(store, n)|
    ensures var op := Snapshot(store, n)[i]; op.id < n && op.id in store && store[op.id] == op
  {
    if i < |Snapshot(store, n - 1)| {
      SnapshotUpTo(store, nextId, n - 1, i);
    }
  }

  ghost predicate Ascending(ops: seq<Op>) {
    forall i, j :: 0 <= i < j < |ops| ==> ops[i].id < ops[j].id
  }

  lemma {:induction false} SnapshotAscends(store: Store, nextId: nat, n: nat)
    requires StoreOk(store, nextId)
    ensures Ascending(Snapshot(store, n))
  {
    if n > 0 {
      SnapshotAscends(store, nextId, n - 1);
      var earlier := Snapshot(store, n - 1);
      forall i | 0 <= i < |earlier|
        ensures earlier[i].id < n - 1
      {
        SnapshotUpTo(store, nextId, n - 1, i);
      }
    }
  }

  /** Every record is in the snapshot. */
  lemma {:induction false} SnapshotComplete(store: Store, n: nat, id: nat) returns (i: nat)
    requires id in store && id < n
    ensures i < |Snapshot(store, n)| && Snapshot(store, n)[i] == store[id]
  {
    if id == n - 1 {
      i := |Snapshot(store, n - 1)|;
    } else {
      i := SnapshotComplete(store, n - 1, id);
    }
  }

  // ----------------------------------------------------------- interleaved passes

  /** What a pass has still to do. `reply` is the outcome of sending `todo[0]`, once that
      has come back and before it is committed. */
  datatype Pass = Pass(todo: seq<Op>, reply: Option<bool>)

  datatype Sent = Sent(id: nat, request: Request, accepted: bool)

  /** `enqueued` and `sent` remember all that was ever enqueued and sent, and `lost` the
      sends whose pass died before it could commit the outcome. */
  datatype Queue = Queue(
    store: Store,
    nextId: nat,
    passes: map<PassId, Pass>,
    enqueued: map<nat, Request>,
    sent: seq<Sent>,
    lost: seq<Sent>)

  const EMPTY := Queue(map[], 1, map[], map[], [], [])

  datatype Action =
    | Enqueue(request: Request)
    | Begin(pass: PassId)
    | Send(pass: PassId, reply: Reply)
    | Settle(pass: PassId)
    | Finish(pass: PassId)
    | Abandon(pass: PassId)

  /** What a pass leaves unsettled when its tab is closed or its worker killed. */
  function Unsettled(p: Pass): seq<Sent> {
    if p.reply.Some? && p.todo != [] then [Sent(p.todo[0].id, p.todo[0].request, p.reply.value)] else []
  }

  function WithPass(q: Queue, pass: PassId, p: Pass): Queue {
    q.(passes := q.passes[pass := p])
  }

  function Step(q: Queue, action: Action): Queue {
    match action
    case Enqueue(request) =>
      q.(store := q.store[q.nextId := Op(q.nextId, request, 0)],
         nextId := q.nextId + 1,
         enqueued := q.enqueued[q.nextId := request])
    case Begin(pass) =>
      if pass in q.passes then q else WithPass(q, pass, Pass(Snapshot(q.store, q.nextId), None))
    case Send(pass, reply) =>
      if pass !in q.passes || q.passes[pass].todo == [] || q.passes[pass].reply.Some? then q
      else
        var p := q.passes[pass];
        var op := p.todo[0];
        if op.attempts >= MAX_ATTEMPTS then WithPass(q, pass, Pass(p.todo[1..], None))
        else
          WithPass(q, pass, p.(reply := Some(reply.Accepted?))).(sent := q.sent + [Sent(op.id, op.request, reply.Accepted?)])
    case Settle(pass) =>
      if pass !in q.passes || q.passes[pass].todo == [] || q.passes[pass].reply.None? then q
      else
        var p := q.passes[pass];
        WithPass(q, pass, Pass(p.todo[1..], None)).(store := Commit(q.store, p.todo[0].id, p.reply.value))
    case Finish(pass) =>
      if pass in q.passes && q.passes[pass].todo == [] then q.(passes := q.passes - {pass}) else q
    case Abandon(pass) =>
      if pass in q.passes then q.(passes := q.passes - {pass}, lost := q.lost + Unsettled(q.passes[pass])) else q
  }

  function RunFrom(q: Queue, actions: seq<Action>): Queue {
    if actions == [] then q else Step(RunFrom(q, actions[..|actions| - 1]), actions[|actions| - 1])
  }

  function Run(actions: seq<Action>): Queue {
    RunFrom(EMPTY, actions)
  }

  /** From `q` on never more than `most` passes at once. */
  ghost predicate OverlapFrom(q: Queue, actions: seq<Action>, most: nat) {
    |RunFrom(q, actions).passes| <= most && (actions != [] ==> OverlapFrom(q, actions[..|actions| - 1], most))
  }

  /** Never more than `most` passes at once. */
  ghost predicate Overlap(actions: seq<Action>, most: nat) {
    OverlapFrom(EMPTY, actions, most)
  }

  // ------------------------------------------------------------------- counting

  function Sends(sent: seq<Sent>, id: nat): nat {
    if sent == [] then 0
    else Sends(sent[..|sent| - 1], id) + if sent[|sent| - 1].id == id then 1 else 0
  }

  function Acceptances(sent: seq<Sent>, id: nat): nat {
    if sent == [] then 0
    else Acceptances(sent[..|sent| - 1], id) + if sent[|sent| - 1].id == id && sent[|sent| - 1].accepted then 1 else 0
  }

  lemma OneMoreSent(sent: seq<Sent>, s: Sent, id: nat)
    ensures Sends(sent + [s], id) == Sends(sent, id) + if s.id == id then 1 else 0
    ensures Acceptances(sent + [s], id) == Acceptances(sent, id) + if s.id == id && s.accepted then 1 else 0
  {
    assert (sent + [s])[..|sent|] == sent;
  }

  /** The pass is going to send the operation. */
  ghost predicate Plans(p: Pass, id: nat) {
    exists i :: (if p.reply.Some? then 1 else 0) <= i < |p.todo| && p.todo[i].id == id && p.todo[i].attempts < MAX_ATTEMPTS
  }

  /** The pass has sent the operation and not yet committed the outcome. */
  predicate Awaits(p: Pass, id: nat) {
    p.reply.Some? && p.todo != [] && p.todo[0].id == id
  }

  ghost function Planning(q: Queue, id: nat): set<PassId> {
    set p | p in q.passes && Plans(q.passes[p], id)
  }

  function Awaiting(q: Queue, id: nat): set<PassId> {
    set p | p in q.passes && Awaits(q.passes[p], id)
  }

  function Winning(q: Queue, id: nat): set<PassId> {
    set p | p in q.passes && Awaits(q.passes[p], id) && q.passes[p].reply == Some(true)
  }

  /** The passes still holding the operation as one to be tried. */
  ghost function Holding(q: Queue, id: nat): set<PassId> {
    Planning(q, id) + Awaiting(q, id)
  }

  // ------------------------------------------------------------------ invariants

  ghost predicate PassOk(q: Queue, p: Pass) {
    && Ascending(p.todo)
    && (p.reply.Some? ==> p.todo != [] && p.todo[0].attempts < MAX_ATTEMPTS)
    && (forall i :: 0 <= i < |p.todo| ==>
          p.todo[i].id < q.nextId && p.todo[i].id in q.enqueued && q.enqueued[p.todo[i].id] == p.todo[i].request)
  }

  /** Keys are in order, and every request is the one that was enqueued under its key. */
  ghost predicate QueueOk(q: Queue) {
    && 1 <= q.nextId && StoreOk(q.store, q.nextId)
    && (forall id :: id in q.enqueued <==> 1 <= id < q.nextId)
    && (forall id :: id in q.store ==> id in q.enqueued && q.store[id].request == q.enqueued[id])
    && (forall p :: p in q.passes ==> PassOk(q, q.passes[p]))
    && (forall i :: 0 <= i < |q.sent| ==> q.sent[i].id in q.enqueued && q.sent[i].request == q.enqueued[q.sent[i].id])
  }

  lemma BeginKeepsOk(q: Queue, pass: PassId)
    requires QueueOk(q)
    ensures QueueOk(Step(q, Begin(pass)))
  {
    hide Snapshot;
    SnapshotAscends(q.store, q.nextId, q.nextId);
    var ops := Snapshot(q.store, q.nextId);
    forall i | 0 <= i < |ops|
      ensures ops[i].id < q.nextId && ops[i].id in q.store && q.store[ops[i].id] == ops[i]
    {
      SnapshotHolds(q.store, q.nextId, i);
    }
    var q' := Step(q, Begin(pass));
    forall p | p in q'.passes
      ensures PassOk(q', q'.passes[p])
    {
      if p in q.passes {
        assert PassOk(q, q.passes[p]);
      }
    }
  }

  lemma SettleKeepsOk(q: Queue, pass: PassId)
    requires QueueOk(q)
    ensures QueueOk(Step(q, Settle(pass)))
  {
    var q' := Step(q, Settle(pass));
    forall p | p in q'.passes
      ensures PassOk(q', q'.passes[p])
    {
      assert PassOk(q, q.passes[p]);
    }
  }

  lemma StepKeepsOk(q: Queue, action: Action)
    requires QueueOk(q)
    ensures QueueOk(Step(q, action))
  {
    if action.Begin? {
      BeginKeepsOk(q, action.pass);
    } else if action.Settle? {
      SettleKeepsOk(q, action.pass);
    } else {
      var q' := Step(q, action);
      forall p | p in q'.passes
        ensures PassOk(q', q'.passes[p])
      {
        assert PassOk(q, q.passes[p]);
      }
    }
  }

  /** The books of one operation: how often it was sent and accepted, how many passes plan
      to send it, await a settlement and await a deletion, how many sends and acceptances
      were lost with their pass, and its attempts if it is stored. */
  ghost predicate Books(sends: nat, acceptances: nat, planning: nat, awaiting: nat, winning: nat,
                        lost: nat, lostWins: nat, attempts: Option<nat>, known: bool, most: nat)
  {
    && sends + planning <= MAX_ATTEMPTS - 1 + most + lost
    && acceptances + planning <= most + lostWins
    && (attempts.Some? ==>
          && attempts.value + planning + awaiting <= MAX_ATTEMPTS - 1 + most
          && sends == attempts.value + awaiting + lost
          && acceptances == winning + lostWins)
    && (known && attempts.None? ==> acceptances > 0)
    && (!known ==> sends == acceptances == lost == lostWins == 0)
  }

  /** The books of the operation balance, with at most `most` passes at once. */
  ghost predicate Balanced(q: Queue, id: nat, most: nat) {
    Books(Sends(q.sent, id), Acceptances(q.sent, id), |Planning(q, id)|, |Awaiting(q, id)|, |Winning(q, id)|,
          Sends(q.lost, id), Acceptances(q.lost, id),
          if id in q.store then Some(q.store[id].attempts) else None, id in q.enqueued, most)
  }

  // -------------------------------------------------------------- the books balance

  lemma {:induction false} Within<T>(a: set<T>, b: set<T>)
    requires a <= b
    ensures |a| <= |b|
  {
    if a != {} {
      var x :| x in a;
      Within(a - {x}, b - {x});
    }
  }

  lemma NeverBoth(q: Queue, id: nat)
    requires QueueOk(q)
    ensures Planning(q, id) !! Awaiting(q, id)
    ensures |Holding(q, id)| == |Planning(q, id)| + |Awaiting(q, id)| <= |q.passes|
    ensures |Winning(q, id)| <= |Awaiting(q, id)|
  {
    forall p | p in q.passes && Awaits(q.passes[p], id)
      ensures !Plans(q.passes[p], id)
    {
      assert PassOk(q, q.passes[p]);
    }
    assert |q.passes| == |q.passes.Keys|;
    Within(Holding(q, id), q.passes.Keys);
    Within(Winning(q, id), Awaiting(q, id));
  }

  /** Nobody holds what was never enqueued. */
  lemma NobodyHolds(q: Queue, id: nat)
    requires QueueOk(q) && id !in q.enqueued
    ensures Planning(q, id) == Awaiting(q, id) == {}
  {
    forall p | p in q.passes
      ensures !Plans(q.passes[p], id) && !Awaits(q.passes[p], id)
    {
      assert PassOk(q, q.passes[p]);
    }
  }

  lemma EnqueueBalances(q: Queue, request: Request, id: nat, most: nat)
    requires QueueOk(q) && Balanced(q, id, most) && |q.passes| <= most
    ensures Balanced(Step(q, Enqueue(request)), id, most)
  {
    var q' := Step(q, Enqueue(request));
    assert Planning(q', id) == Planning(q, id);
    assert Awaiting(q', id) == Awaiting(q, id);
    assert Winning(q', id) == Winning(q, id);
    if id == q.nextId {
      NobodyHolds(q, id);
      NeverBoth(q, id);
    }
  }

  /** Nothing happened to this operation. */
  lemma Untouched(q: Queue, q': Queue, id: nat, most: nat)
    requires Balanced(q, id, most)
    requires Planning(q', id) == Planning(q, id) && Awaiting(q', id) == Awaiting(q, id) && Winning(q', id) == Winning(q, id)
    requires id in q'.store <==> id in q.store
    requires id in q.store ==> q'.store[id] == q.store[id]
    requires id in q'.enqueued <==> id in q.enqueued
    requires Sends(q'.sent, id) == Sends(q.sent, id) && Acceptances(q'.sent, id) == Acceptances(q.sent, id)
    requires q'.lost == q.lost
    ensures Balanced(q', id, most)
  {
  }

  lemma BeginBalances(q: Queue, pass: PassId, id: nat, most: nat)
    requires QueueOk(q) && Balanced(q, id, most) && |Step(q, Begin(pass)).passes| <= most
    ensures Balanced(Step(q, Begin(pass)), id, most)
  {
    hide Snapshot;
    var q' := Step(q, Begin(pass));
    if pass !in q.passes {
      PlansOfSnapshot(q, id);
      assert Awaiting(q', id) == Awaiting(q, id);
      assert Winning(q', id) == Winning(q, id);
      if id in q.store && q.store[id].attempts < MAX_ATTEMPTS {
        BeginKeepsOk(q, pass);
        BegunBalances(q, q', id, most);
      } else {
        assert Planning(q', id) == Planning(q, id);
        Untouched(q, q', id, most);
      }
    }
  }

  /** One more pass holds the operation, and it is one of at most `most`. */
  lemma BegunBalances(q: Queue, q': Queue, id: nat, most: nat)
    requires QueueOk(q') && Balanced(q, id, most) && |q'.passes| <= most
    requires id in q.store && q.store[id].attempts < MAX_ATTEMPTS
    requires q'.store == q.store && q'.enqueued == q.enqueued && q'.sent == q.sent && q'.lost == q.lost
    requires Awaiting(q', id) == Awaiting(q, id) && Winning(q', id) == Winning(q, id)
    ensures Balanced(q', id, most)
  {
    NeverBoth(q', id);
  }

  lemma PlansOfSnapshot(q: Queue, id: nat)
    requires QueueOk(q)
    ensures Plans(Pass(Snapshot(q.store, q.nextId), None), id) <==> id in q.store && q.store[id].attempts < MAX_ATTEMPTS
  {
    var ops := Snapshot(q.store, q.nextId);
    var p := Pass(ops, None);
    if Plans(p, id) {
      var i :| 0 <= i < |p.todo| && p.todo[i].id == id && p.todo[i].attempts < MAX_ATTEMPTS;
      SnapshotHolds(q.store, q.nextId, i);
    }
    if id in q.store && q.store[id].attempts < MAX_ATTEMPTS {
      var i := SnapshotComplete(q.store, q.nextId, id);
      assert p.todo[i] == q.store[id];
    }
  }

  /** Dropping the head of the list changes no plan but one for the head itself. */
  lemma PlansAfterHead(p: Pass, id: nat)
    requires p.todo != [] && (p.reply.Some? || p.todo[0].attempts >= MAX_ATTEMPTS)
    ensures Plans(Pass(p.todo[1..], None), id) <==> Plans(p, id)
  {
    var rest := Pass(p.todo[1..], None);
    if Plans(p, id) {
      var i :| 1 <= i < |p.todo| && p.todo[i].id == id && p.todo[i].attempts < MAX_ATTEMPTS;
      assert rest.todo[i - 1] == p.todo[i];
    }
    if i :| 0 <= i < |rest.todo| && rest.todo[i].id == id && rest.todo[i].attempts < MAX_ATTEMPTS {
      assert p.todo[i + 1] == rest.todo[i];
    }
  }

  lemma PlansAfterSend(p: Pass, accepted: bool, id: nat)
    requires p.todo != [] && p.reply.None? && p.todo[0].attempts < MAX_ATTEMPTS && Ascending(p.todo)
    ensures Plans(p.(reply := Some(accepted)), id) <==> Plans(p, id) && id != p.todo[0].id
    ensures Plans(p, p.todo[0].id)
  {
    if id != p.todo[0].id && Plans(p, id) {
      var i :| 0 <= i < |p.todo| && p.todo[i].id == id && p.todo[i].attempts < MAX_ATTEMPTS;
      assert 1 <= i;
    }
  }

  // How the holders of an operation change when one pass does.

  lemma PlanningSame(q: Queue, q': Queue, pass: PassId, p': Pass, id: nat)
    requires pass in q.passes && q'.passes == q.passes[pass := p'] && (Plans(p', id) <==> Plans(q.passes[pass], id))
    ensures Planning(q', id) == Planning(q, id)
  {
  }

  lemma PlanningLess(q: Queue, q': Queue, pass: PassId, p': Pass, id: nat)
    requires pass in q.passes && q'.passes == q.passes[pass := p'] && !Plans(p', id) && Plans(q.passes[pass], id)
    ensures |Planning(q', id)| == |Planning(q, id)| - 1
  {
    assert Planning(q', id) == Planning(q, id) - {pass};
  }

  lemma AwaitingSame(q: Queue, q': Queue, pass: PassId, p': Pass, id: nat)
    requires pass in q.passes && q'.passes == q.passes[pass := p'] && !Awaits(p', id) && !Awaits(q.passes[pass], id)
    ensures Awaiting(q', id) == Awaiting(q, id) && Winning(q', id) == Winning(q, id)
  {
  }

  lemma AwaitingMore(q: Queue, q': Queue, pass: PassId, p': Pass, id: nat)
    requires pass in q.passes && q'.passes == q.passes[pass := p'] && Awaits(p', id) && !Awaits(q.passes[pass], id)
    ensures |Awaiting(q', id)| == |Awaiting(q, id)| + 1
    ensures |Winning(q', id)| == |Winning(q, id)| + if p'.reply.value then 1 else 0
  {
    assert Awaiting(q', id) == Awaiting(q, id) + {pass};
    assert Winning(q', id) == if p'.reply.value then Winning(q, id) + {pass} else Winning(q, id);
  }

  lemma AwaitingLess(q: Queue, q': Queue, pass: PassId, p': Pass, id: nat)
    requires pass in q.passes && q'.passes == q.passes[pass := p'] && !Awaits(p', id) && Awaits(q.passes[pass], id)
    ensures |Awaiting(q', id)| == |Awaiting(q, id)| - 1
    ensures |Winning(q', id)| == |Winning(q, id)| - if q.passes[pass].reply.value then 1 else 0
  {
    assert Awaiting(q', id) == Awaiting(q, id) - {pass};
    assert Winning(q', id) == Winning(q, id) - {pass};
  }

  /** The pass plans and awaits the operation just as before. */
  lemma SamePlans(q: Queue, q': Queue, pass: PassId, p': Pass, id: nat, most: nat)
    requires Balanced(q, id, most) && pass in q.passes && q'.passes == q.passes[pass := p']
    requires Plans(p', id) <==> Plans(q.passes[pass], id)
    requires !Awaits(p', id) && !Awaits(q.passes[pass], id)
    requires id in q'.store <==> id in q.store
    requires id in q.store ==> q'.store[id] == q.store[id]
    requires q'.enqueued == q.enqueued
    requires Sends(q'.sent, id) == Sends(q.sent, id) && Acceptances(q'.sent, id) == Acceptances(q.sent, id)
    requires q'.lost == q.lost
    ensures Balanced(q', id, most)
  {
    PlanningSame(q, q', pass, p', id);
    AwaitingSame(q, q', pass, p', id);
    Untouched(q, q', id, most);
  }

  lemma SendBalances(q: Queue, pass: PassId, reply: Reply, id: nat, most: nat)
    requires QueueOk(q) && Balanced(q, id, most)
    ensures Balanced(Step(q, Send(pass, reply)), id, most)
  {
    if pass in q.passes && q.passes[pass].todo != [] && q.passes[pass].reply.None? {
      var p, q' := q.passes[pass], Step(q, Send(pass, reply));
      assert PassOk(q, p);
      if p.todo[0].attempts >= MAX_ATTEMPTS {
        PlansAfterHead(p, id);
        SamePlans(q, q', pass, Pass(p.todo[1..], None), id, most);
      } else {
        var s := Sent(p.todo[0].id, p.todo[0].request, reply.Accepted?);
        PlansAfterSend(p, s.accepted, id);
        OneMoreSent(q.sent, s, id);
        if id == s.id {
          SentBalances(q, q', pass, p.(reply := Some(s.accepted)), s, id, most);
        } else {
          SamePlans(q, q', pass, p.(reply := Some(s.accepted)), id, most);
        }
      }
    }
  }

  lemma SentBalances(q: Queue, q': Queue, pass: PassId, p': Pass, s: Sent, id: nat, most: nat)
    requires Balanced(q, id, most) && pass in q.passes && q'.passes == q.passes[pass := p'] && s.id == id
    requires q'.store == q.store && q'.enqueued == q.enqueued && q'.sent == q.sent + [s] && q'.lost == q.lost && id in q.enqueued
    requires Plans(q.passes[pass], id) && !Plans(p', id) && q.passes[pass].reply.None?
    requires Awaits(p', id) && p'.reply == Some(s.accepted)
    ensures Balanced(q', id, most)
  {
    OneMoreSent(q.sent, s, id);
    PlanningLess(q, q', pass, p', id);
    AwaitingMore(q, q', pass, p', id);
  }

  lemma SettleBalances(q: Queue, pass: PassId, id: nat, most: nat)
    requires QueueOk(q) && Balanced(q, id, most)
    ensures Balanced(Step(q, Settle(pass)), id, most)
  {
    if pass in q.passes && q.passes[pass].todo != [] && q.passes[pass].reply.Some? {
      var p, q' := q.passes[pass], Step(q, Settle(pass));
      PlansAfterHead(p, id);
      if id == p.todo[0].id {
        assert PassOk(q, p);
        SettledBalances(q, q', pass, Pass(p.todo[1..], None), id, most);
      } else {
        SamePlans(q, q', pass, Pass(p.todo[1..], None), id, most);
      }
    }
  }

  lemma SettledBalances(q: Queue, q': Queue, pass: PassId, p': Pass, id: nat, most: nat)
    requires QueueOk(q) && Balanced(q, id, most) && pass in q.passes && q'.passes == q.passes[pass := p'] && id in q.enqueued
    requires Awaits(q.passes[pass], id) && !Awaits(p', id) && (Plans(p', id) <==> Plans(q.passes[pass], id))
    requires q'.store == Commit(q.store, id, q.passes[pass].reply.value) && q'.enqueued == q.enqueued && q'.sent == q.sent && q'.lost == q.lost
    ensures Balanced(q', id, most)
  {
    PlanningSame(q, q', pass, p', id);
    AwaitingLess(q, q', pass, p', id);
  }

  lemma FinishBalances(q: Queue, pass: PassId, id: nat, most: nat)
    requires QueueOk(q) && Balanced(q, id, most)
    ensures Balanced(Step(q, Finish(pass)), id, most)
  {
    hide QueueOk, Balanced;
    if pass in q.passes && q.passes[pass].todo == [] {
      var q' := Step(q, Finish(pass));
      assert !Plans(q.passes[pass], id) && !Awaits(q.passes[pass], id);
      assert Planning(q', id) == Planning(q, id);
      assert Awaiting(q', id) == Awaiting(q, id);
      assert Winning(q', id) == Winning(q, id);
      Untouched(q, q', id, most);
    }
  }

  /** The operation a dying pass was about to settle counts as lost. */
  lemma AbandonBalances(q: Queue, pass: PassId, id: nat, most: nat)
    requires QueueOk(q) && Balanced(q, id, most)
    ensures Balanced(Step(q, Abandon(pass)), id, most)
  {
    if pass in q.passes {
      var p, q' := q.passes[pass], Step(q, Abandon(pass));
      PassLeaves(q, q', pass, id);
      hide QueueOk, Balanced;
      if Awaits(p, id) {
        AwaitsEnqueued(q, pass, id);
        AbandonedBalances(q, q', pass, Sent(p.todo[0].id, p.todo[0].request, p.reply.value), id, most);
      } else {
        NothingLost(q.lost, p, id);
        FewerPlans(q, q', id, most);
      }
    }
  }

  /** No other pass notices that one is gone. */
  lemma PassLeaves(q: Queue, q': Queue, pass: PassId, id: nat)
    requires pass in q.passes && q'.passes == q.passes - {pass}
    ensures |Planning(q', id)| <= |Planning(q, id)|
    ensures !Awaits(q.passes[pass], id) ==> Awaiting(q', id) == Awaiting(q, id) && Winning(q', id) == Winning(q, id)
  {
    hide Plans;
    Within(Planning(q', id), Planning(q, id));
  }

  lemma AwaitsEnqueued(q: Queue, pass: PassId, id: nat)
    requires QueueOk(q) && pass in q.passes && Awaits(q.passes[pass], id)
    ensures id in q.enqueued
  {
    assert PassOk(q, q.passes[pass]);
  }

  lemma FewerPlans(q: Queue, q': Queue, id: nat, most: nat)
    requires Balanced(q, id, most) && |Planning(q', id)| <= |Planning(q, id)|
    requires Awaiting(q', id) == Awaiting(q, id) && Winning(q', id) == Winning(q, id)
    requires q'.store == q.store && q'.enqueued == q.enqueued && q'.sent == q.sent
    requires Sends(q'.lost, id) == Sends(q.lost, id) && Acceptances(q'.lost, id) == Acceptances(q.lost, id)
    ensures Balanced(q', id, most)
  {
  }

  lemma AbandonedBalances(q: Queue, q': Queue, pass: PassId, s: Sent, id: nat, most: nat)
    requires Balanced(q, id, most) && pass in q.passes && q'.passes == q.passes - {pass} && id in q.enqueued
    requires Awaits(q.passes[pass], id) && s.id == id && s.accepted == q.passes[pass].reply.value
    requires |Planning(q', id)| <= |Planning(q, id)|
    requires q'.store == q.store && q'.enqueued == q.enqueued && q'.sent == q.sent && q'.lost == q.lost + [s]
    ensures Balanced(q', id, most)
  {
    OneMoreSent(q.lost, s, id);
    assert Awaiting(q', id) == Awaiting(q, id) - {pass};
    assert Winning(q', id) == Winning(q, id) - {pass};
  }

  lemma NothingLost(lost: seq<Sent>, p: Pass, id: nat)
    requires !Awaits(p, id)
    ensures Sends(lost + Unsettled(p), id) == Sends(lost, id)
    ensures Acceptances(lost + Unsettled(p), id) == Acceptances(lost, id)
  {
    if Unsettled(p) == [] {
      assert lost + Unsettled(p) == lost;
    } else {
      OneMoreSent(lost, Unsettled(p)[0], id);
      assert lost + Unsettled(p) == lost + [Unsettled(p)[0]];
    }
  }

  lemma {:induction false} RunsBalance(actions: seq<Action>, id: nat, most: nat)
    requires Overlap(actions, most)
    ensures QueueOk(Run(actions)) && Balanced(Run(actions), id, most)
  {
    if actions == [] {
      assert Planning(EMPTY, id) == {} && Awaiting(EMPTY, id) == {};
    } else {
      var before, last := actions[..|actions| - 1], actions[|actions| - 1];
      RunsBalance(before, id, most);
      StepKeepsOk(Run(before), last);
      match last
      case Enqueue(request) => EnqueueBalances(Run(before), request, id, most);
      case Begin(pass) => BeginBalances(Run(before), pass, id, most);
      case Send(pass, reply) => SendBalances(Run(before), pass, reply, id, most);
      case Settle(pass) => SettleBalances(Run(before), pass, id, most);
      case Finish(pass) => FinishBalances(Run(before), pass, id, most);
      case Abandon(pass) => AbandonBalances(Run(before), pass, id, most);
    }
  }

  // ---------------------------------------------------------------- what this means

  /** With at most `most` passes at once, an operation's attempts and the passes still
      holding it stay within the limit; it is sent at most `4 + most` times
      and accepted at most `most` times, not counting what was lost with a dying pass. */
  lemma AttemptsBounded(actions: seq<Action>, id: nat, most: nat)
    requires Overlap(actions, most)
    ensures id in Run(actions).store ==>
      Run(actions).store[id].attempts + |Holding(Run(actions), id)| <= 4 + most
    ensures Sends(Run(actions).sent, id) <= 4 + most + Sends(Run(actions).lost, id)
    ensures Acceptances(Run(actions).sent, id) <= most + Acceptances(Run(actions).lost, id)
  {
    RunsBalance(actions, id, most);
    NeverBoth(Run(actions), id);
  }

  predicate NobodyDies(actions: seq<Action>) {
    forall i :: 0 <= i < |actions| ==> !actions[i].Abandon?
  }

  lemma {:induction false} NoDeathNoLoss(actions: seq<Action>)
    requires NobodyDies(actions)
    ensures Run(actions).lost == []
  {
    if actions != [] {
      NoDeathNoLoss(actions[..|actions| - 1]);
    }
  }

  /** Without overlap at most five attempts, and if no pass dies at most five sends and one
      acceptance. */
  lemma NoOverlapNoExcess(actions: seq<Action>, id: nat)
    requires Overlap(actions, 1)
    ensures id in Run(actions).store ==> Run(actions).store[id].attempts <= 5
    ensures NobodyDies(actions) ==>
      Sends(Run(actions).sent, id) <= 5 && Acceptances(Run(actions).sent, id) <= 1
  {
    RunsBalance(actions, id, 1);
    if NobodyDies(actions) {
      NoDeathNoLoss(actions);
    }
  }

  lemma {:induction false} OverlapExists(actions: seq<Action>) returns (most: nat)
    ensures Overlap(actions, most)
  {
    most := |Run(actions).passes|;
    if actions != [] {
      var m := OverlapExists(actions[..|actions| - 1]);
      most := if m > most then m else most;
      OverlapGrows(actions[..|actions| - 1], m, most);
    }
  }

  lemma {:induction false} OverlapGrows(actions: seq<Action>, a: nat, b: nat)
    requires Overlap(actions, a) && a <= b
    ensures Overlap(actions, b)
  {
    if actions != [] {
      OverlapGrows(actions[..|actions| - 1], a, b);
    }
  }

  /** At least once, under any interleaving: an operation that was ever enqueued is still
      there as enqueued, or some send of that very request was accepted. */
  lemma AtLeastOnce(actions: seq<Action>, id: nat)
    requires id in Run(actions).enqueued
    ensures var q := Run(actions);
      || (id in q.store && q.store[id].request == q.enqueued[id])
      || (exists i :: 0 <= i < |q.sent| && q.sent[i] == Sent(id, q.enqueued[id], true))
  {
    var most := OverlapExists(actions);
    RunsBalance(actions, id, most);
    var q := Run(actions);
    if id !in q.store {
      var i := AcceptedSomewhere(q.sent, id);
      assert q.sent[i].id in q.enqueued;
    }
  }

  lemma {:induction false} AcceptedSomewhere(sent: seq<Sent>, id: nat) returns (i: nat)
    requires Acceptances(sent, id) > 0
    ensures i < |sent| && sent[i].id == id && sent[i].accepted
  {
    i := |sent| - 1;
    if !(sent[i].id == id && sent[i].accepted) {
      i := AcceptedSomewhere(sent[..i], id);
    }
  }

  /** No resurrection: what was deleted stays deleted, whatever follows. */
  lemma {:induction false} StaysDeleted(q: Queue, actions: seq<Action>, id: nat)
    requires id < q.nextId && id !in q.store
    ensures id < RunFrom(q, actions).nextId && id !in RunFrom(q, actions).store
  {
    if actions != [] {
      StaysDeleted(q, actions[..|actions| - 1], id);
    }
  }

  // -------------------------------------------------------------- undisturbed passes

  /** What one pass makes of one operation of its snapshot. */
  function Attempt(store: Store, op: Op, accepted: bool): Store {
    if op.attempts >= MAX_ATTEMPTS then store else Commit(store, op.id, accepted)
  }

  /** A pass over `ops`; `reply` is what the network answers for each key. */
  function Drain(store: Store, ops: seq<Op>, reply: nat -> Reply): Store {
    if ops == [] then store
    else Attempt(Drain(store, ops[..|ops| - 1], reply), ops[|ops| - 1], reply(ops[|ops| - 1].id).Accepted?)
  }

  predicate Synced(op: Op, reply: nat -> Reply) {
    op.attempts < MAX_ATTEMPTS && reply(op.id).Accepted?
  }

  function CountSynced(ops: seq<Op>, reply: nat -> Reply): nat {
    if ops == [] then 0 else CountSynced(ops[..|ops| - 1], reply) + if Synced(ops[|ops| - 1], reply) then 1 else 0
  }

  /** The keys a pass over `ops` sends, in its order. */
  function SentKeys(ops: seq<Op>): seq<nat> {
    if ops == [] then []
    else SentKeys(ops[..|ops| - 1]) + if ops[|ops| - 1].attempts < MAX_ATTEMPTS then [ops[|ops| - 1].id] else []
  }

  /** The record of an operation after an undisturbed pass, if it is still there. */
  function AfterPass(op: Op, accepted: bool): Option<Op> {
    if op.attempts >= MAX_ATTEMPTS then Some(op)
    else if accepted then None
    else Some(op.(attempts := op.attempts + 1))
  }

  ghost predicate SnapshotOf(ops: seq<Op>, store: Store) {
    && Ascending(ops)
    && (forall i :: 0 <= i < |ops| ==> ops[i].id in store && store[ops[i].id] == ops[i])
  }

  lemma {:induction false} DrainOf(store: Store, ops: seq<Op>, reply: nat -> Reply, id: nat)
    requires SnapshotOf(ops, store) && id in store && store[id].id == id
    ensures (id in Drain(store, ops, reply)) == (!(store[id] in ops) || AfterPass(store[id], reply(id).Accepted?).Some?)
    ensures id in Drain(store, ops, reply) ==>
      Drain(store, ops, reply)[id] == if store[id] in ops then AfterPass(store[id], reply(id).Accepted?).value else store[id]
  {
    if ops != [] {
      var before, last := ops[..|ops| - 1], ops[|ops| - 1];
      DrainOf(store, before, reply, id);
      assert store[id] in ops <==> store[id] in before || store[id] == last;
      if last.id == id {
        assert store[id] == last && last !in before;
      } else {
        assert store[id] != last;
      }
    }
  }

  /** An undisturbed pass treats every record once, and nothing else. */
  lemma {:induction false} DrainAddsNothing(store: Store, ops: seq<Op>, reply: nat -> Reply)
    ensures Drain(store, ops, reply).Keys <= store.Keys
  {
    if ops != [] {
      DrainAddsNothing(store, ops[..|ops| - 1], reply);
    }
  }

  lemma PassOverStore(store: Store, nextId: nat, reply: nat -> Reply, id: nat)
    requires StoreOk(store, nextId) && id in store
    ensures id in Drain(store, Snapshot(store, nextId), reply) <==> store[id].attempts >= 5 || reply(id) != Accepted
    ensures id in Drain(store, Snapshot(store, nextId), reply) ==>
      Drain(store, Snapshot(store, nextId), reply)[id] ==
        if store[id].attempts >= 5 then store[id] else store[id].(attempts := store[id].attempts + 1)
  {
    var ops := Snapshot(store, nextId);
    SnapshotAscends(store, nextId, nextId);
    forall i | 0 <= i < |ops|
      ensures ops[i].id in store && store[ops[i].id] == ops[i]
    {
      SnapshotHolds(store, nextId, i);
    }
    var i := SnapshotComplete(store, nextId, id);
    DrainOf(store, ops, reply, id);
  }

  /** What one pass of the machine does, left alone. */
  function Script(pass: PassId, ops: seq<Op>, reply: nat -> Reply): seq<Action> {
    if ops == [] then []
    else
      var op := ops[0];
      [Send(pass, reply(op.id))]
      + (if op.attempts >= MAX_ATTEMPTS then [] else [Settle(pass)])
      + Script(pass, ops[1..], reply)
  }

  lemma {:induction false} RunFromTwice(q: Queue, a: seq<Action>, b: seq<Action>)
    ensures RunFrom(q, a + b) == RunFrom(RunFrom(q, a), b)
  {
    if b == [] {
      assert a + b == a;
    } else {
      assert (a + b)[..|a + b| - 1] == a + b[..|b| - 1];
      RunFromTwice(q, a, b[..|b| - 1]);
    }
  }

  lemma {:induction false} DrainFromFront(store: Store, ops: seq<Op>, reply: nat -> Reply)
    requires ops != []
    ensures Drain(store, ops, reply) == Drain(Attempt(store, ops[0], reply(ops[0].id).Accepted?), ops[1..], reply)
  {
    if |ops| > 1 {
      DrainFromFront(store, ops[..|ops| - 1], reply);
      assert ops[..|ops| - 1][1..] == ops[1..][..|ops| - 2];
    } else {
      assert ops[..0] == [] && ops[1..] == [];
      assert Drain(store, ops[..0], reply) == store;
    }
  }

  /** One operation's worth of the script. */
  lemma ScriptHead(q: Queue, pass: PassId, reply: nat -> Reply, head: seq<Action>)
    requires pass in q.passes && q.passes[pass].reply.None? && q.passes[pass].todo != []
    requires head == [Send(pass, reply(q.passes[pass].todo[0].id))]
      + if q.passes[pass].todo[0].attempts >= MAX_ATTEMPTS then [] else [Settle(pass)]
    ensures var q', op := RunFrom(q, head), q.passes[pass].todo[0];
      && q'.passes == q.passes[pass := Pass(q.passes[pass].todo[1..], None)]
      && q'.store == Attempt(q.store, op, reply(op.id).Accepted?)
  {
    var op := q.passes[pass].todo[0];
    var send := Send(pass, reply(op.id));
    assert head[..1] == [send] && RunFrom(q, []) == q;
    assert [send][..0] == [];
    assert RunFrom(q, [send]) == Step(q, send);
    if op.attempts < MAX_ATTEMPTS {
      assert RunFrom(q, head) == Step(RunFrom(q, head[..1]), Settle(pass));
    } else {
      assert head == [send];
    }
  }

  /** A pass that nothing disturbs is a plain drain of its snapshot, for the page and for
      the service worker alike. */
  lemma {:induction false} UndisturbedPassDrains(q: Queue, pass: PassId, reply: nat -> Reply)
    requires pass in q.passes && q.passes[pass].reply.None?
    ensures var q' := RunFrom(q, Script(pass, q.passes[pass].todo, reply));
      && q'.store == Drain(q.store, q.passes[pass].todo, reply)
      && q'.passes == q.passes[pass := Pass([], None)]
    decreases |q.passes[pass].todo|
  {
    var ops := q.passes[pass].todo;
    if ops != [] {
      var head := [Send(pass, reply(ops[0].id))]
        + if ops[0].attempts >= MAX_ATTEMPTS then [] else [Settle(pass)];
      ScriptHead(q, pass, reply, head);
      DrainFromFront(q.store, ops, reply);
      UndisturbedPassDrains(RunFrom(q, head), pass, reply);
      RunFromTwice(q, head, Script(pass, ops[1..], reply));
      assert Script(pass, ops, reply) == head + Script(pass, ops[1..], reply);
    }
  }

  lemma DrainKeepsStoreOk(store: Store, nextId: nat, reply: nat -> Reply)
    requires StoreOk(store, nextId)
    ensures StoreOk(Drain(store, Snapshot(store, nextId), reply), nextId)
  {
    var store' := Drain(store, Snapshot(store, nextId), reply);
    DrainAddsNothing(store, Snapshot(store, nextId), reply);
    forall id | id in store'
      ensures id < nextId && store'[id].id == id
    {
      PassOverStore(store, nextId, reply, id);
    }
  }

  lemma PassBegins(store: Store, ops: seq<Op>, reply: nat -> Reply)
    ensures Drain(store, ops[..0], reply) == store && CountSynced(ops[..0], reply) == 0 && SentKeys(ops[..0]) == []
  {
  }

  /** How a pass goes on from its first k operations. */
  lemma OneMoreOperation(store: Store, ops: seq<Op>, k: nat, reply: nat -> Reply)
    requires k < |ops|
    ensures var op, before := ops[k], ops[..k];
      && Drain(store, ops[..k + 1], reply) == Attempt(Drain(store, before, reply), op, reply(op.id).Accepted?)
      && CountSynced(ops[..k + 1], reply) == CountSynced(before, reply) + (if Synced(op, reply) then 1 else 0)
      && SentKeys(ops[..k + 1]) == SentKeys(before) + (if op.attempts < MAX_ATTEMPTS then [op.id] else [])
  {
    assert ops[..k + 1][..k] == ops[..k];
  }

  // -------------------------------------------------------------------- the code

  /** The store of the field app and the two drains over it. */
  class FieldDb {
    var pending: Store
    var nextId: nat

    ghost predicate Valid()
      reads this
    {
      1 <= nextId && StoreOk(pending, nextId)
    }

    constructor ()
      ensures Valid() && pending == map[] && nextId == 1
    {
      pending, nextId := map[], 1;
    }

    method EnqueueOperation(request: Request, attempts: nat) returns (id: nat)
      requires Valid()
      modifies this
      ensures Valid() && id == old(nextId) && id !in old(pending)
      ensures pending == old(pending)[id := Op(id, request, attempts)] && nextId == old(nextId) + 1
    {
      id := nextId;
      pending := pending[id := Op(id, request, attempts)];
      nextId := nextId + 1;
    }

    method GetPendingOperations() returns (ops: seq<Op>)
      requires Valid()
      ensures ops == Snapshot(pending, nextId)
    {
      ops := [];
      for n := 0 to nextId
        invariant ops == Snapshot(pending, n)
      {
        if n in pending {
          ops := ops + [pending[n]];
        }
      }
    }

    method DeletePendingOperation(id: nat)
      modifies this`pending
      ensures pending == old(pending) - {id}
    {
      pending := pending - {id};
    }

    method IncrementAttempts(id: nat)
      modifies this`pending
      ensures pending == if id in old(pending) then old(pending)[id := old(pending)[id].(attempts := old(pending)[id].attempts + 1)] else old(pending)
    {
      if id in pending {
        var op := pending[id];
        op := op.(attempts := op.attempts + 1);
        pending := pending[id := op];
      }
    }

    /** The page's pass. `sends` lists the keys sent, in the order they were. */
    method SyncPendingOperations(online: bool, reply: nat -> Reply)
      returns (synced: nat, failed: nat, remaining: nat, sends: seq<nat>)
      requires Valid()
      modifies this`pending
      ensures Valid()
      ensures !online ==> pending == old(pending) && synced == failed == remaining == |sends| == 0
      ensures online ==> pending == Drain(old(pending), Snapshot(old(pending), nextId), reply)
      ensures online ==> synced + failed == |old(pending)| && remaining == failed == |pending|
      ensures forall i, j :: 0 <= i < j < |sends| ==> sends[i] < sends[j]
      ensures online ==> forall id :: id in sends <==> id in old(pending) && old(pending)[id].attempts < 5
    {
      hide Drain, CountSynced, SentKeys;
      synced, failed, remaining, sends := 0, 0, 0, [];
      if !online {
        return;
      }
      ghost var store := pending;
      var ops := GetPendingOperations();
      PassBegins(store, ops, reply);
      for k := 0 to |ops|
        invariant pending == Drain(store, ops[..k], reply)
        invariant synced == CountSynced(ops[..k], reply) && synced + failed == k
        invariant sends == SentKeys(ops[..k])
      {
        var op := ops[k];
        OneMoreOperation(store, ops, k, reply);
        if op.attempts >= MAX_ATTEMPTS {
          failed := failed + 1;
        } else {
          sends := sends + [op.id];
          var r := reply(op.id);
          if r.Accepted? {
            DeletePendingOperation(op.id);
            synced := synced + 1;
          } else {
            IncrementAttempts(op.id);
            failed := failed + 1;
          }
        }
      }
      assert ops[..|ops|] == ops;
      DrainKeepsStoreOk(store, nextId, reply);
      PassCounts(store, nextId, reply);
      var left := GetPendingOperations();
      SnapshotIsStore(pending, nextId);
      remaining := |left|;
    }

    /** The service worker's pass over the same store. */
    method FlushIncidentQueue(reply: nat -> Reply)
      requires Valid()
      modifies this`pending
      ensures Valid() && pending == Drain(old(pending), Snapshot(old(pending), nextId), reply)
    {
      ghost var store := pending;
      var ops := GetPendingOperations();
      assert ops[..0] == [];
      for k := 0 to |ops|
        invariant pending == Drain(store, ops[..k], reply)
      {
        var op := ops[k];
        OneMoreOperation(store, ops, k, reply);
        if op.attempts < MAX_ATTEMPTS {
          var r := reply(op.id);
          if r.Accepted? {
            DeletePendingOperation(op.id);
          } else {
            IncrementAttempts(op.id);
          }
        }
      }
      assert ops[..|ops|] == ops;
      DrainKeepsStoreOk(store, nextId, reply);
    }
  }

  /** The snapshot is the store, each record once and in order. */
  lemma SnapshotIsStore(store: Store, nextId: nat)
    requires StoreOk(store, nextId)
    ensures SnapshotOf(Snapshot(store, nextId), store) && |Snapshot(store, nextId)| == |store|
    ensures forall id :: id in store ==> exists i :: 0 <= i < |Snapshot(store, nextId)| && Snapshot(store, nextId)[i] == store[id]
  {
    var ops := Snapshot(store, nextId);
    SnapshotAscends(store, nextId, nextId);
    forall i | 0 <= i < |ops|
      ensures ops[i].id in store && store[ops[i].id] == ops[i]
    {
      SnapshotHolds(store, nextId, i);
    }
    forall id | id in store
      ensures exists i :: 0 <= i < |ops| && ops[i] == store[id]
    {
      var i := SnapshotComplete(store, nextId, id);
    }
    SnapshotSize(ops, store.Keys);
  }

  /** What a pass over the whole store reports is true of the store. */
  lemma PassCounts(store: Store, nextId: nat, reply: nat -> Reply)
    requires StoreOk(store, nextId)
    ensures var ops := Snapshot(store, nextId);
      && |ops| == |store| && |Drain(store, ops, reply)| + CountSynced(ops, reply) == |store|
      && (forall i, j :: 0 <= i < j < |SentKeys(ops)| ==> SentKeys(ops)[i] < SentKeys(ops)[j])
      && (forall id :: id in SentKeys(ops) <==> id in store && store[id].attempts < 5)
  {
    var ops := Snapshot(store, nextId);
    SnapshotIsStore(store, nextId);
    DrainSize(store, ops, reply);
    SentKeysOf(ops);
    forall id
      ensures id in SentKeys(ops) <==> id in store && store[id].attempts < MAX_ATTEMPTS
    {
      if id in store {
        var i :| 0 <= i < |ops| && ops[i] == store[id];
        assert ops[i].id == id;
      }
    }
  }

  /** A pass over `ops` sends the operation of key `id`. */
  ghost predicate IsSent(ops: seq<Op>, id: nat) {
    exists i :: 0 <= i < |ops| && ops[i].id == id && ops[i].attempts < MAX_ATTEMPTS
  }

  lemma IsSentByLast(before: seq<Op>, last: Op, id: nat)
    ensures IsSent(before + [last], id) <==> IsSent(before, id) || (last.attempts < MAX_ATTEMPTS && last.id == id)
  {
    var ops := before + [last];
    assert ops[|before|] == last;
    if i :| 0 <= i < |before| && before[i].id == id && before[i].attempts < MAX_ATTEMPTS {
      assert ops[i] == before[i];
    }
  }

  lemma {:induction false} SentKeysOf(ops: seq<Op>)
    requires Ascending(ops)
    ensures forall i, j :: 0 <= i < j < |SentKeys(ops)| ==> SentKeys(ops)[i] < SentKeys(ops)[j]
    ensures forall id :: id in SentKeys(ops) <==> IsSent(ops, id)
  {
    if ops != [] {
      var before, last := ops[..|ops| - 1], ops[|ops| - 1];
      SentKeysOf(before);
      assert ops == before + [last];
      var keys := SentKeys(before);
      forall k | 0 <= k < |keys|
        ensures keys[k] < last.id
      {
        assert keys[k] in keys;
        var i :| 0 <= i < |before| && before[i].id == keys[k];
        assert ops[i].id < ops[|ops| - 1].id;
      }
      forall id
        ensures id in SentKeys(ops) <==> IsSent(ops, id)
      {
        hide IsSent;
        IsSentByLast(before, last, id);
      }
    }
  }

  lemma {:induction false} DrainSize(store: Store, ops: seq<Op>, reply: nat -> Reply)
    requires SnapshotOf(ops, store)
    ensures |Drain(store, ops, reply)| + CountSynced(ops, reply) == |store|
    ensures forall id :: id in store && (forall i :: 0 <= i < |ops| ==> ops[i].id != id) ==> id in Drain(store, ops, reply)
  {
    if ops != [] {
      var before, last := ops[..|ops| - 1], ops[|ops| - 1];
      DrainSize(store, before, reply);
      var s := Drain(store, before, reply);
      assert last.id in s;
      assert |s - {last.id}| == |s| - 1 by {
        assert (s - {last.id}).Keys == s.Keys - {last.id};
        assert |s| == |s.Keys| && |s - {last.id}| == |(s - {last.id}).Keys|;
      }
      assert |Bump(s, last.id)| == |s| by {
        assert Bump(s, last.id).Keys == s.Keys;
        assert |s| == |s.Keys| && |Bump(s, last.id)| == |Bump(s, last.id).Keys|;
      }
      forall id | id in store && (forall i :: 0 <= i < |ops| ==> ops[i].id != id)
        ensures id in Drain(store, ops, reply)
      {
        assert forall i :: 0 <= i < |before| ==> before[i] == ops[i];
        assert last == ops[|ops| - 1] && last.id != id;
      }
    }
  }

  /** Records with pairwise distinct keys are as many as their keys. */
  lemma {:induction false} SnapshotSize(ops: seq<Op>, keys: set<nat>)
    requires Ascending(ops)
    requires forall i :: 0 <= i < |ops| ==> ops[i].id in keys
    requires forall id :: id in keys ==> exists i :: 0 <= i < |ops| && ops[i].id == id
    ensures |ops| == |keys|
  {
    if ops == [] {
      assert keys == {};
    } else {
      var last := |ops| - 1;
      var rest := keys - {ops[last].id};
      forall id | id in rest
        ensures exists i :: 0 <= i < last && ops[..last][i].id == id
      {
        var i :| 0 <= i < |ops| && ops[i].id == id;
        assert ops[..last][i].id == id;
      }
      SnapshotSize(ops[..last], rest);
    }
  }
}
