/**
 The limits of the offline queue: that its bounds are reached, and that five completed
 passes are the end of an operation, whatever else goes on meanwhile.
 */
module OfflineQueueLimits {
  import opened Prelude
  import opened OfflineQueue

  // -------------------------------------------------------------- running on

  /** The actions lead from one state to the other, with at most `most` passes at once. */
  ghost predicate Leads(q: Queue, actions: seq<Action>, q': Queue, most: nat) {
    RunFrom(q, actions) == q' && OverlapFrom(q, actions, most)
  }

  lemma {:induction false} OverlapTwice(q: Queue, a: seq<Action>, b: seq<Action>, most: nat)
    requires OverlapFrom(q, a, most) && OverlapFrom(RunFrom(q, a), b, most)
    ensures OverlapFrom(q, a + b, most)
  {
    RunFromTwice(q, a, b);
    if b == [] {
      assert a + b == a;
    } else {
      assert (a + b)[..|a + b| - 1] == a + b[..|b| - 1];
      OverlapTwice(q, a, b[..|b| - 1], most);
    }
  }

  lemma Then(q: Queue, a: seq<Action>, q1: Queue, b: seq<Action>, q2: Queue, most: nat)
    requires Leads(q, a, q1, most) && Leads(q1, b, q2, most)
    ensures Leads(q, a + b, q2, most)
  {
    RunFromTwice(q, a, b);
    OverlapTwice(q, a, b, most);
  }

  lemma NoAction(q: Queue, most: nat)
    requires |q.passes| <= most
    ensures Leads(q, [], q, most)
  {
  }

  lemma OneAction(q: Queue, a: Action, most: nat)
    requires |q.passes| <= most && |Step(q, a).passes| <= most
    ensures Leads(q, [a], Step(q, a), most)
  {
    assert [a][..0] == [] && RunFrom(q, []) == q;
  }

  lemma ThreeActions(q: Queue, a: Action, q1: Queue, b: Action, q2: Queue, c: Action, q3: Queue, most: nat)
    requires q1 == Step(q, a) && q2 == Step(q1, b) && q3 == Step(q2, c)
    requires |q.passes| <= most && |q1.passes| <= most && |q2.passes| <= most && |q3.passes| <= most
    ensures Leads(q, [a, b, c], q3, most)
  {
    hide Leads, Step;
    OneAction(q, a, most);
    OneAction(q1, b, most);
    OneAction(q2, c, most);
    Then(q, [a], q1, [b], q2, most);
    Then(q, [a] + [b], q2, [c], q3, most);
    assert [a] + [b] + [c] == [a, b, c];
  }

  lemma {:induction false} OverlapLess(q: Queue, actions: seq<Action>, a: nat, b: nat)
    requires OverlapFrom(q, actions, a) && a <= b
    ensures OverlapFrom(q, actions, b)
  {
    if actions != [] {
      OverlapLess(q, actions[..|actions| - 1], a, b);
    }
  }

  lemma LeadsWithLess(q: Queue, actions: seq<Action>, q': Queue, a: nat, b: nat)
    requires Leads(q, actions, q', a) && a <= b
    ensures Leads(q, actions, q', b)
  {
    OverlapLess(q, actions, a, b);
  }

  lemma LeadsFromEmpty(actions: seq<Action>, q: Queue, most: nat)
    requires Leads(EMPTY, actions, q, most)
    ensures Run(actions) == q && Overlap(actions, most)
  {
  }

  // ------------------------------------------------------ the bounds are reached

  /** A queue that has only ever seen one operation. */
  function Single(request: Request, store: Store, passes: map<PassId, Pass>, sent: seq<Sent>): Queue {
    Queue(store, 2, passes, map[1 := request], sent, [])
  }

  function Stored(request: Request, attempts: nat): Store {
    map[1 := Op(1, request, attempts)]
  }

  lemma SnapshotOfSingle(request: Request, attempts: nat)
    ensures Snapshot(Stored(request, attempts), 2) == [Op(1, request, attempts)]
  {
    assert Snapshot(Stored(request, attempts), 0) == [];
    assert Snapshot(Stored(request, attempts), 1) == [];
  }

  function Repeated(s: Sent, n: nat): seq<Sent> {
    if n == 0 then [] else Repeated(s, n - 1) + [s]
  }

  lemma {:induction false} CountRepeated(s: Sent, n: nat)
    ensures Sends(Repeated(s, n), s.id) == n && Acceptances(Repeated(s, n), s.id) == if s.accepted then n else 0
  {
    if n > 0 {
      CountRepeated(s, n - 1);
      OneMoreSent(Repeated(s, n - 1), s, s.id);
    }
  }

  lemma {:induction false} RepeatedMore(s: Sent, a: nat, b: nat)
    ensures Repeated(s, a) + Repeated(s, b) == Repeated(s, a + b)
  {
    if b > 0 {
      RepeatedMore(s, a, b - 1);
      assert Repeated(s, a) + Repeated(s, b) == Repeated(s, a) + Repeated(s, b - 1) + [s];
    }
  }

  /** The passes from `k` up to `n`, all with the same snapshot. */
  function Fan(op: Op, k: nat, n: nat): (fan: map<PassId, Pass>)
    ensures forall p :: p in fan <==> k <= p < n
    ensures forall p :: p in fan ==> fan[p] == Pass([op], None)
    ensures k <= n ==> |fan| == n - k
    decreases n - k
  {
    if k < n then Fan(op, k + 1, n)[k := Pass([op], None)] else map[]
  }

  function Begins(n: nat): seq<Action> {
    if n == 0 then [] else Begins(n - 1) + [Begin(n - 1)]
  }

  function TakeTurn(pass: PassId, reply: Reply): seq<Action> {
    [Send(pass, reply), Settle(pass), Finish(pass)]
  }

  /** The passes from 0 up to `n` take their turns one after the other. */
  function Turns(n: nat, reply: Reply): seq<Action> {
    if n == 0 then [] else Turns(n - 1, reply) + TakeTurn(n - 1, reply)
  }

  lemma {:induction false} AfterBegins(request: Request, attempts: nat, sent: seq<Sent>, n: nat, most: nat)
    requires n <= most
    ensures Leads(Single(request, Stored(request, attempts), map[], sent), Begins(n),
                  Single(request, Stored(request, attempts), Fan(Op(1, request, attempts), 0, n), sent), most)
  {
    hide Leads;
    var q, op := Single(request, Stored(request, attempts), map[], sent), Op(1, request, attempts);
    if n == 0 {
      NoAction(q, most);
    } else {
      AfterBegins(request, attempts, sent, n - 1, most);
      SnapshotOfSingle(request, attempts);
      var before, after := q.(passes := Fan(op, 0, n - 1)), q.(passes := Fan(op, 0, n));
      assert Fan(op, 0, n - 1)[n - 1 := Pass([op], None)] == Fan(op, 0, n);
      OneAction(before, Begin(n - 1), most);
      Then(q, Begins(n - 1), before, [Begin(n - 1)], after, most);
    }
  }

  /** The store after `k` of the passes had their turn. */
  function Worn(request: Request, attempts: nat, k: nat, reply: Reply): Store {
    if reply.Accepted? && k > 0 then map[] else Stored(request, if reply.Accepted? then attempts else attempts + k)
  }

  /** One pass sends, settles and finishes. */
  lemma OneTurn(q: Queue, request: Request, attempts: nat, k: nat, n: nat, reply: Reply)
    requires attempts < MAX_ATTEMPTS && k < n && q.passes == Fan(Op(1, request, attempts), k, n)
    requires q.store == Worn(request, attempts, k, reply)
    ensures Leads(q, TakeTurn(k, reply),
                  q.(store := Worn(request, attempts, k + 1, reply), passes := Fan(Op(1, request, attempts), k + 1, n),
                     sent := q.sent + [Sent(1, request, reply.Accepted?)]), n)
  {
    hide Leads, Step;
    var op, rest := Op(1, request, attempts), Fan(Op(1, request, attempts), k + 1, n);
    var q1 := q.(passes := rest[k := Pass([op], Some(reply.Accepted?))], sent := q.sent + [Sent(1, request, reply.Accepted?)]);
    var q2 := q1.(passes := rest[k := Pass([], None)], store := Worn(request, attempts, k + 1, reply));
    StepSends(q, k, rest, op, reply);
    SettleWorn(request, attempts, k, reply);
    StepSettles(q1, k, rest, op, reply);
    StepFinishes(q2, k, rest);
    ThreeActions(q, Send(k, reply), q1, Settle(k), q2, Finish(k), q2.(passes := rest), n);
  }

  lemma StepSends(q: Queue, k: nat, rest: map<PassId, Pass>, op: Op, reply: Reply)
    requires q.passes == rest[k := Pass([op], None)] && op.attempts < MAX_ATTEMPTS
    ensures Step(q, Send(k, reply)) ==
      q.(passes := rest[k := Pass([op], Some(reply.Accepted?))], sent := q.sent + [Sent(op.id, op.request, reply.Accepted?)])
  {
  }

  lemma StepSettles(q: Queue, k: nat, rest: map<PassId, Pass>, op: Op, reply: Reply)
    requires q.passes == rest[k := Pass([op], Some(reply.Accepted?))]
    ensures Step(q, Settle(k)) == q.(passes := rest[k := Pass([], None)], store := Commit(q.store, op.id, reply.Accepted?))
  {
    assert [op][1..] == [];
  }

  lemma StepFinishes(q: Queue, k: nat, rest: map<PassId, Pass>)
    requires k !in rest && q.passes == rest[k := Pass([], None)]
    ensures Step(q, Finish(k)) == q.(passes := rest)
  {
    assert q.passes - {k} == rest;
  }

  lemma TurnOfSingle(request: Request, attempts: nat, sent: seq<Sent>, k: nat, n: nat, reply: Reply)
    requires attempts < MAX_ATTEMPTS && k < n
    ensures Leads(Single(request, Worn(request, attempts, k, reply), Fan(Op(1, request, attempts), k, n), sent), TakeTurn(k, reply),
                  Single(request, Worn(request, attempts, k + 1, reply), Fan(Op(1, request, attempts), k + 1, n),
                         sent + [Sent(1, request, reply.Accepted?)]), n)
  {
    hide Leads, Worn, Fan;
    OneTurn(Single(request, Worn(request, attempts, k, reply), Fan(Op(1, request, attempts), k, n), sent),
            request, attempts, k, n, reply);
  }

  lemma SettleWorn(request: Request, attempts: nat, k: nat, reply: Reply)
    ensures Commit(Worn(request, attempts, k, reply), 1, reply.Accepted?) == Worn(request, attempts, k + 1, reply)
  {
  }

  lemma {:induction false} AfterTurns(request: Request, attempts: nat, before: seq<Sent>, k: nat, n: nat, reply: Reply)
    requires attempts < MAX_ATTEMPTS && k <= n
    ensures Leads(Single(request, Stored(request, attempts), Fan(Op(1, request, attempts), 0, n), before), Turns(k, reply),
                  Single(request, Worn(request, attempts, k, reply), Fan(Op(1, request, attempts), k, n),
                         before + Repeated(Sent(1, request, reply.Accepted?), k)), n)
  {
    hide Leads, Fan;
    var s, op := Sent(1, request, reply.Accepted?), Op(1, request, attempts);
    var q := Single(request, Stored(request, attempts), Fan(op, 0, n), before);
    if k == 0 {
      assert before + Repeated(s, 0) == before;
      NoAction(q, n);
    } else {
      hide Worn;
      AfterTurns(request, attempts, before, k - 1, n, reply);
      var q1 := Single(request, Worn(request, attempts, k - 1, reply), Fan(op, k - 1, n), before + Repeated(s, k - 1));
      TurnOfSingle(request, attempts, before + Repeated(s, k - 1), k - 1, n, reply);
      assert before + Repeated(s, k - 1) + [s] == before + Repeated(s, k);
      Then(q, Turns(k - 1, reply), q1, TakeTurn(k - 1, reply),
           Single(request, Worn(request, attempts, k, reply), Fan(op, k, n), before + Repeated(s, k)), n);
    }
  }

  /** `n` passes begin together and then take their turns. */
  function Burst(n: nat, reply: Reply): seq<Action> {
    Begins(n) + Turns(n, reply)
  }

  lemma AfterBurst(request: Request, attempts: nat, sent: seq<Sent>, n: nat, reply: Reply)
    requires attempts < MAX_ATTEMPTS
    ensures Leads(Single(request, Stored(request, attempts), map[], sent), Burst(n, reply),
                  Single(request, Worn(request, attempts, n, reply), map[], sent + Repeated(Sent(1, request, reply.Accepted?), n)), n)
  {
    hide Leads;
    var q := Single(request, Stored(request, attempts), map[], sent);
    AfterBegins(request, attempts, sent, n, n);
    AfterTurns(request, attempts, sent, n, n, reply);
    Then(q, Begins(n), q.(passes := Fan(Op(1, request, attempts), 0, n)), Turns(n, reply),
         Single(request, Worn(request, attempts, n, reply), map[], sent + Repeated(Sent(1, request, reply.Accepted?), n)), n);
  }

  /** Passes that come one at a time, each to be refused. */
  function Refusals(n: nat): seq<Action> {
    if n == 0 then [] else Refusals(n - 1) + Burst(1, Refused)
  }

  lemma {:induction false} AfterRefusals(request: Request, n: nat)
    requires n <= MAX_ATTEMPTS
    ensures Leads(Single(request, Stored(request, 0), map[], []), Refusals(n),
                  Single(request, Stored(request, n), map[], Repeated(Sent(1, request, false), n)), 1)
  {
    hide Leads;
    var q, s := Single(request, Stored(request, 0), map[], []), Sent(1, request, false);
    if n == 0 {
      NoAction(q, 1);
    } else {
      AfterRefusals(request, n - 1);
      AfterBurst(request, n - 1, Repeated(s, n - 1), 1, Refused);
      assert Repeated(s, 1) == [s] by { RepeatedMore(s, 0, 1); }
      Then(q, Refusals(n - 1), Single(request, Stored(request, n - 1), map[], Repeated(s, n - 1)), Burst(1, Refused),
           Single(request, Stored(request, n), map[], Repeated(s, n)), 1);
    }
  }

  lemma AfterEnqueue(request: Request, most: nat)
    ensures Leads(EMPTY, [Enqueue(request)], Single(request, Stored(request, 0), map[], []), most)
  {
    OneAction(EMPTY, Enqueue(request), most);
  }

  lemma {:induction false} BurstsAreAlive(n: nat, reply: Reply)
    ensures NobodyDies(Begins(n)) && NobodyDies(Turns(n, reply)) && NobodyDies(Burst(n, reply))
  {
    if n > 0 {
      BurstsAreAlive(n - 1, reply);
    }
  }

  lemma {:induction false} RefusalsAreAlive(n: nat)
    ensures NobodyDies(Refusals(n))
  {
    if n > 0 {
      RefusalsAreAlive(n - 1);
      BurstsAreAlive(1, Refused);
    }
  }

  /** The bound is sharp for every amount of overlap: some run with at most `most` passes at
      once makes `4 + most` attempts and sends of one operation. So five is
      the limit exactly if passes do not overlap. */
  lemma AttemptsReachTheBound(request: Request, most: nat) returns (actions: seq<Action>)
    requires most >= 1
    ensures Overlap(actions, most) && NobodyDies(actions)
    ensures 1 in Run(actions).store && Run(actions).store[1].attempts == 4 + most
    ensures Sends(Run(actions).sent, 1) == 4 + most
  {
    hide Leads, Run, Overlap, Refusals, Burst, Repeated;
    var few, s := MAX_ATTEMPTS - 1, Sent(1, request, false);
    var start := Single(request, Stored(request, 0), map[], []);
    var worn := Single(request, Stored(request, few), map[], Repeated(s, few));
    var end := Single(request, Stored(request, few + most), map[], Repeated(s, few + most));
    AfterEnqueue(request, most);
    AfterRefusals(request, few);
    LeadsWithLess(start, Refusals(few), worn, 1, most);
    RepeatedMore(s, few, most);
    AfterBurst(request, few, Repeated(s, few), most, Refused);
    AllThree(request, few, most, start, worn, end);
    actions := [Enqueue(request)] + Refusals(few) + Burst(most, Refused);
    LeadsFromEmpty(actions, end, most);
    RefusalsAreAlive(few);
    BurstsAreAlive(most, Refused);
    CountRepeated(s, few + most);
  }

  lemma AllThree(request: Request, few: nat, most: nat, start: Queue, worn: Queue, end: Queue)
    requires Leads(EMPTY, [Enqueue(request)], start, most)
    requires Leads(start, Refusals(few), worn, most) && Leads(worn, Burst(most, Refused), end, most)
    ensures Leads(EMPTY, [Enqueue(request)] + Refusals(few) + Burst(most, Refused), end, most)
  {
    hide Leads;
    Then(EMPTY, [Enqueue(request)], start, Refusals(few), worn, most);
    Then(EMPTY, [Enqueue(request)] + Refusals(few), worn, Burst(most, Refused), end, most);
  }

  /** So is the bound on acceptances. */
  lemma AcceptancesReachTheBound(request: Request, most: nat) returns (actions: seq<Action>)
    ensures Overlap(actions, most) && NobodyDies(actions)
    ensures 1 in Run(actions).enqueued && Acceptances(Run(actions).sent, 1) == most
  {
    hide Leads, Run, Overlap, Burst, Repeated;
    var s := Sent(1, request, true);
    AfterEnqueue(request, most);
    AfterBurst(request, 0, [], most, Accepted);
    assert [] + Repeated(s, most) == Repeated(s, most);
    var end := Single(request, Worn(request, 0, most, Accepted), map[], Repeated(s, most));
    Then(EMPTY, [Enqueue(request)], Single(request, Stored(request, 0), map[], []), Burst(most, Accepted), end, most);
    actions := [Enqueue(request)] + Burst(most, Accepted);
    LeadsFromEmpty(actions, end, most);
    BurstsAreAlive(most, Accepted);
    CountRepeated(s, most);
  }

  /** A pass that dies between the answer and the deletion. */
  function Death(): seq<Action> {
    [Begin(0), Send(0, Accepted), Abandon(0)]
  }

  function Deaths(n: nat): seq<Action> {
    if n == 0 then [] else Deaths(n - 1) + Death()
  }

  lemma OneDeath(q: Queue, request: Request)
    requires q.store == Stored(request, 0) && q.nextId == 2 && q.passes == map[]
    ensures Leads(q, Death(), q.(sent := q.sent + [Sent(1, request, true)], lost := q.lost + [Sent(1, request, true)]), 1)
  {
    hide Leads;
    var s, op := Sent(1, request, true), Op(1, request, 0);
    SnapshotOfSingle(request, 0);
    var q1 := q.(passes := map[0 := Pass([op], None)]);
    var q2 := q.(passes := map[0 := Pass([op], Some(true))], sent := q.sent + [s]);
    assert Step(q, Begin(0)) == q1;
    assert Step(q1, Send(0, Accepted)) == q2;
    assert q2.passes - {0} == map[];
    ThreeActions(q, Begin(0), q1, Send(0, Accepted), q2, Abandon(0), q.(sent := q.sent + [s], lost := q.lost + [s]), 1);
  }

  lemma {:induction false} AfterDeaths(request: Request, n: nat)
    ensures var q, s := Single(request, Stored(request, 0), map[], []), Sent(1, request, true);
      Leads(q, Deaths(n), q.(sent := Repeated(s, n), lost := Repeated(s, n)), 1)
  {
    hide Leads;
    var q, s := Single(request, Stored(request, 0), map[], []), Sent(1, request, true);
    if n == 0 {
      NoAction(q, 1);
    } else {
      AfterDeaths(request, n - 1);
      var q1 := q.(sent := Repeated(s, n - 1), lost := Repeated(s, n - 1));
      OneDeath(q1, request);
      Then(q, Deaths(n - 1), q1, Death(), q.(sent := Repeated(s, n), lost := Repeated(s, n)), 1);
    }
  }

  /** Without any overlap, every pass that dies at the wrong moment is worth one more
      acceptance, so that nothing but the losses themselves bounds them. */
  lemma DeathsRepeatAcceptances(request: Request, n: nat) returns (actions: seq<Action>)
    ensures Overlap(actions, 1) && 1 in Run(actions).store && Run(actions).store[1].attempts == 0
    ensures Acceptances(Run(actions).sent, 1) == Acceptances(Run(actions).lost, 1) == n
  {
    var q, s := Single(request, Stored(request, 0), map[], []), Sent(1, request, true);
    AfterEnqueue(request, 1);
    AfterDeaths(request, n);
    Then(EMPTY, [Enqueue(request)], q, Deaths(n), q.(sent := Repeated(s, n), lost := Repeated(s, n)), 1);
    actions := [Enqueue(request)] + Deaths(n);
    CountRepeated(s, n);
  }

  // ------------------------------------------------------------------ giving up

  /** Either the operation is gone, given up, or has more than `a` attempts, or the pass has
      yet to deal with it. */
  ghost predicate Tried(q: Queue, pass: PassId, id: nat, a: nat) {
    id in q.store ==>
      && a <= q.store[id].attempts
      && (|| q.store[id].attempts >= MAX_ATTEMPTS || a < q.store[id].attempts
          || (pass in q.passes && (Plans(q.passes[pass], id) || Awaits(q.passes[pass], id))))
  }

  lemma StepKeepsTried(q: Queue, action: Action, pass: PassId, id: nat, a: nat)
    requires QueueOk(q) && id < q.nextId && Tried(q, pass, id, a) && action != Abandon(pass)
    ensures Tried(Step(q, action), pass, id, a)
  {
    match action
    case Enqueue(request) =>
    case Begin(p) =>
    case Send(p, reply) =>
      if p in q.passes && q.passes[p].todo != [] && q.passes[p].reply.None? {
        assert PassOk(q, q.passes[p]);
        if q.passes[p].todo[0].attempts >= MAX_ATTEMPTS {
          PlansAfterHead(q.passes[p], id);
        } else {
          PlansAfterSend(q.passes[p], reply.Accepted?, id);
        }
      }
    case Settle(p) =>
      if p in q.passes && q.passes[p].todo != [] && q.passes[p].reply.Some? {
        PlansAfterHead(q.passes[p], id);
      }
    case Finish(p) =>
    case Abandon(p) =>
  }

  lemma {:induction false} RunKeepsTried(q: Queue, actions: seq<Action>, pass: PassId, id: nat, a: nat)
    requires QueueOk(q) && id < q.nextId && Tried(q, pass, id, a) && Abandon(pass) !in actions
    ensures QueueOk(RunFrom(q, actions)) && id < RunFrom(q, actions).nextId && Tried(RunFrom(q, actions), pass, id, a)
  {
    if actions != [] {
      var before, last := actions[..|actions| - 1], actions[|actions| - 1];
      RunKeepsTried(q, before, pass, id, a);
      StepKeepsOk(RunFrom(q, before), last);
      assert last in actions;
      StepKeepsTried(RunFrom(q, before), last, pass, id, a);
    }
  }

  /** A pass from its beginning to its end, whatever is enqueued, sent and settled by others
      in the meantime. */
  datatype Turn = Turn(before: seq<Action>, pass: PassId, during: seq<Action>)

  function Play(q: Queue, turn: Turn): Queue {
    RunFrom(Step(RunFrom(q, turn.before), Begin(turn.pass)), turn.during)
  }

  /** The pass begins, does not die, and is over at the end of the turn. */
  predicate Completed(q: Queue, turn: Turn) {
    && turn.pass !in RunFrom(q, turn.before).passes
    && Abandon(turn.pass) !in turn.during
    && turn.pass !in Play(q, turn).passes
  }

  /** Under any overlap, a completed pass leaves an operation that was there when it began
      deleted, given up, or with one more attempt behind it. */
  lemma CompletedPassTries(q: Queue, pass: PassId, during: seq<Action>, id: nat, a: nat)
    requires QueueOk(q) && id < q.nextId && pass !in q.passes && (id in q.store ==> a <= q.store[id].attempts)
    requires Abandon(pass) !in during && pass !in RunFrom(Step(q, Begin(pass)), during).passes
    ensures var q' := RunFrom(Step(q, Begin(pass)), during);
      id in q'.store ==> id in q.store && (q'.store[id].attempts >= 5 || q'.store[id].attempts >= a + 1)
  {
    var q1 := Step(q, Begin(pass));
    PlansOfSnapshot(q, id);
    BeginKeepsOk(q, pass);
    RunKeepsTried(q1, during, pass, id, a);
    if id !in q.store {
      StaysDeleted(q1, during, id);
    }
  }

  function PlayAll(q: Queue, turns: seq<Turn>): Queue {
    if turns == [] then q else Play(PlayAll(q, turns[..|turns| - 1]), turns[|turns| - 1])
  }

  ghost predicate AllCompleted(q: Queue, turns: seq<Turn>) {
    turns == [] ||
    (var before := turns[..|turns| - 1];
     AllCompleted(q, before) && Completed(PlayAll(q, before), turns[|turns| - 1]))
  }

  lemma {:induction false} RunKeepsOk(q: Queue, actions: seq<Action>, id: nat)
    requires QueueOk(q) && id < q.nextId
    ensures QueueOk(RunFrom(q, actions)) && id < RunFrom(q, actions).nextId
    ensures id in RunFrom(q, actions).store ==> id in q.store && q.store[id].attempts <= RunFrom(q, actions).store[id].attempts
  {
    if actions != [] {
      RunKeepsOk(q, actions[..|actions| - 1], id);
      StepKeepsOk(RunFrom(q, actions[..|actions| - 1]), actions[|actions| - 1]);
    }
  }

  /** After `k` passes completed one after another, among any others, an old operation that
      is still there has `k` attempts behind it, or as many as it is ever given. */
  lemma {:induction false} OldOperationsRunOut(q: Queue, turns: seq<Turn>, id: nat)
    requires QueueOk(q) && id < q.nextId && AllCompleted(q, turns)
    ensures var q' := PlayAll(q, turns);
      && QueueOk(q') && id < q'.nextId
      && (id in q'.store ==> id in q.store && (q'.store[id].attempts >= 5 || q'.store[id].attempts >= |turns|))
  {
    if turns != [] {
      var before, turn := turns[..|turns| - 1], turns[|turns| - 1];
      OldOperationsRunOut(q, before, id);
      var q0 := PlayAll(q, before);
      var q1 := RunFrom(q0, turn.before);
      RunKeepsOk(q0, turn.before, id);
      StepKeepsOk(q1, Begin(turn.pass));
      RunKeepsOk(Step(q1, Begin(turn.pass)), turn.during, id);
      CompletedPassTries(q1, turn.pass, turn.during, id, if id in q1.store then q1.store[id].attempts else 0);
    }
  }

  /** The operation is gone or given up. */
  predicate Spent(q: Queue, id: nat) {
    id in q.store ==> q.store[id].attempts >= MAX_ATTEMPTS
  }

  lemma StepOfSpent(q: Queue, action: Action, id: nat)
    requires QueueOk(q) && id < q.nextId && Spent(q, id)
    ensures Spent(Step(q, action), id)
    ensures Sends(q.sent, id) <= Sends(Step(q, action).sent, id)
    ensures Sends(Step(q, action).sent, id) + |Planning(Step(q, action), id)| <= Sends(q.sent, id) + |Planning(q, id)|
  {
    hide QueueOk, Snapshot;
    var q' := Step(q, action);
    match action
    case Enqueue(request) => EnqueueOfSpent(q, request, id);
    case Begin(p) => BeginOfSpent(q, p, id);
    case Send(p, reply) => SendOfSpent(q, p, reply, id);
    case Settle(p) => SettleOfSpent(q, p, id);
    case Finish(p) => Within(Planning(q', id), Planning(q, id));
    case Abandon(p) => Within(Planning(q', id), Planning(q, id));
  }

  lemma EnqueueOfSpent(q: Queue, request: Request, id: nat)
    requires id < q.nextId && Spent(q, id)
    ensures Planning(Step(q, Enqueue(request)), id) == Planning(q, id) && Spent(Step(q, Enqueue(request)), id)
  {
  }

  lemma BeginOfSpent(q: Queue, p: PassId, id: nat)
    requires QueueOk(q) && Spent(q, id)
    ensures Planning(Step(q, Begin(p)), id) == Planning(q, id)
  {
    hide Snapshot;
    PlansOfSnapshot(q, id);
  }

  lemma SettleOfSpent(q: Queue, p: PassId, id: nat)
    requires QueueOk(q) && Spent(q, id)
    ensures Planning(Step(q, Settle(p)), id) == Planning(q, id) && Spent(Step(q, Settle(p)), id)
  {
    if p in q.passes && q.passes[p].todo != [] && q.passes[p].reply.Some? {
      PlansAfterHead(q.passes[p], id);
      PlanningSame(q, Step(q, Settle(p)), p, Pass(q.passes[p].todo[1..], None), id);
    }
  }

  lemma SendOfSpent(q: Queue, p: PassId, reply: Reply, id: nat)
    requires QueueOk(q) && Spent(q, id)
    ensures var q' := Step(q, Send(p, reply));
      && Spent(q', id)
      && Sends(q.sent, id) <= Sends(q'.sent, id)
      && Sends(q'.sent, id) + |Planning(q', id)| <= Sends(q.sent, id) + |Planning(q, id)|
  {
    if p in q.passes && q.passes[p].todo != [] && q.passes[p].reply.None? {
      var pass, q' := q.passes[p], Step(q, Send(p, reply));
      assert PassOk(q, pass);
      if pass.todo[0].attempts >= MAX_ATTEMPTS {
        PlansAfterHead(pass, id);
        PlanningSame(q, q', p, Pass(pass.todo[1..], None), id);
      } else {
        PlansAfterSend(pass, reply.Accepted?, id);
        OneMoreSent(q.sent, Sent(pass.todo[0].id, pass.todo[0].request, reply.Accepted?), id);
        if id == pass.todo[0].id {
          PlanningLess(q, q', p, pass.(reply := Some(reply.Accepted?)), id);
        } else {
          PlanningSame(q, q', p, pass.(reply := Some(reply.Accepted?)), id);
        }
      }
    }
  }

  lemma {:induction false} RunOfSpent(q: Queue, actions: seq<Action>, id: nat)
    requires QueueOk(q) && id < q.nextId && Spent(q, id)
    ensures var q' := RunFrom(q, actions);
      && QueueOk(q') && id < q'.nextId && Spent(q', id) && Sends(q.sent, id) <= Sends(q'.sent, id)
      && Sends(q'.sent, id) + |Planning(q', id)| <= Sends(q.sent, id) + |Planning(q, id)|
  {
    if actions != [] {
      var before := actions[..|actions| - 1];
      RunOfSpent(q, before, id);
      StepKeepsOk(RunFrom(q, before), actions[|actions| - 1]);
      StepOfSpent(RunFrom(q, before), actions[|actions| - 1], id);
    }
  }

  /** After five completed passes only those passes send an old operation again that already
      planned to, each at most once; if there are none it is never sent again. */
  lemma {:induction false} FivePassesSuffice(q: Queue, turns: seq<Turn>, later: seq<Action>, id: nat)
    requires QueueOk(q) && id < q.nextId && AllCompleted(q, turns) && |turns| >= 5
    ensures var q1 := PlayAll(q, turns);
      var q2 := RunFrom(q1, later);
      && Sends(q2.sent, id) <= Sends(q1.sent, id) + |Planning(q1, id)|
      && (Planning(q1, id) == {} ==> Sends(q2.sent, id) == Sends(q1.sent, id))
  {
    OldOperationsRunOut(q, turns, id);
    RunOfSpent(PlayAll(q, turns), later, id);
  }
}
